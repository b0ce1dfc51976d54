/**
 A client that pages through the audit log by following next-page tokens, while other requests keep
 appending entries between its calls. Entries are told apart by their position in the sequence of all
 entries ever appended.
 */
module Pagination {
  import opened Wrappers
  import opened AuditStores
  import opened AuditListing
  import opened Decimal

  /** One call: everything appended up to then, the request, the offset its token stands for, and the answer. */
  datatype Call = Call(log: seq<Entry>, req: Request, offset: nat, resp: Response) {
    function Size(): nat {
      |resp.auditLogs|
    }
  }

  predicate Answers(call: Call, capacity: nat) {
    && ParseToken(call.req.pageToken) == Ok(call.offset)
    && Listing(Newest(call.log, capacity), call.req) == Ok(call.resp)
  }

  predicate Follows(prev: Call, next: Call) {
    && prev.log <= next.log
    && next.req.pageToken == prev.resp.nextPageToken
    && next.req.pageToken != ""
  }

  /** The client starts without a token and then sends back each token it got, until it gets none. */
  ghost predicate IsSession(calls: seq<Call>, capacity: nat) {
    && 1 <= capacity <= MAX_INT
    && (forall i | 0 <= i < |calls| :: Answers(calls[i], capacity))
    && (calls != [] ==> calls[0].req.pageToken == "")
    && (forall i, j | 0 <= i < |calls| && 0 <= j < |calls| && j == i + 1 :: Follows(calls[i], calls[j]))
  }

  ghost predicate IsComplete(calls: seq<Call>) {
    calls != [] && calls[|calls| - 1].resp.nextPageToken == ""
  }

  /** The entry at this position was the `k`-th item of the call's page. */
  predicate ShowsAt(call: Call, k: nat, position: nat) {
    && k < call.Size()
    && position == |call.log| - 1 - call.offset - k
    && position < |call.log|
    && Shows(call.resp.auditLogs[k], call.log[position])
  }

  predicate InStore(log: seq<Entry>, capacity: nat, position: int) {
    0 <= position && |log| - capacity <= position < |log|
  }

  /** The page is a contiguous run of the log, newest first, that starts `offset` entries behind the end. */
  predicate ShowsRun(call: Call) {
    var top := |call.log| - 1 - call.offset;
    && top + 1 >= call.Size()
    && forall k | 0 <= k < call.Size() :: Shows(call.resp.auditLogs[k], call.log[top - k])
  }

  lemma SliceOfNewest(log: seq<Entry>, capacity: nat, offset: nat, limit: nat, k: nat)
    requires k < |Slice(Newest(log, capacity), offset, limit)|
    ensures offset + k < Min(|log|, capacity)
    ensures Slice(Newest(log, capacity), offset, limit)[k] == log[|log| - 1 - offset - k]
  {
  }

  lemma AnswerShowsRun(c: Call, capacity: nat)
    requires Answers(c, capacity)
    ensures c.offset < Min(|c.log|, capacity) ==> ShowsRun(c)
  {
    var offset := c.offset;
    var limit := PageSize(c.req.pageSize);
    var page := Slice(Newest(c.log, capacity), offset, limit);
    assert c.resp.auditLogs == ToAuditLogs(page);
    forall k | 0 <= k < |page| ensures offset + k < Min(|c.log|, capacity) && page[k] == c.log[|c.log| - 1 - offset - k] {
      SliceOfNewest(c.log, capacity, offset, limit, k);
    }
  }

  /** What one answer shows, and how its token continues. */
  lemma PageIsContiguous(c: Call, capacity: nat)
    requires Answers(c, capacity) && capacity <= MAX_INT
    ensures var total := Min(|c.log|, capacity);
            var offset := c.offset;
            && c.Size() == (if offset < total then Min(PageSize(c.req.pageSize), total - offset) else 0)
            && (offset < total ==> ShowsRun(c))
            && (c.resp.nextPageToken != "" ==> offset + c.Size() < total && ParseToken(c.resp.nextPageToken) == Ok(offset + c.Size()))
            && (c.resp.nextPageToken == "" ==> offset + c.Size() >= total)
  {
    AnswerShowsRun(c, capacity);
    var next := c.offset + c.Size();
    if next < Min(|c.log|, capacity) {
      AtoiOfItoa(next);
    }
  }

  /** Every call but the last returns a full page, so the offset grows by exactly the page size. */
  lemma OffsetGrows(calls: seq<Call>, capacity: nat, i: nat)
    requires IsSession(calls, capacity) && 1 <= i < |calls|
    ensures var prev := calls[i - 1];
            && prev.Size() == PageSize(prev.req.pageSize)
            && calls[i].offset == prev.offset + prev.Size() < Min(|prev.log|, capacity)
            && prev.log <= calls[i].log
  {
    PageIsContiguous(calls[i - 1], capacity);
    assert Follows(calls[i - 1], calls[i]);
  }

  /** After call `i` the client has seen every entry of the first store down to where page `i` ends. */
  lemma {:induction false} SeenSoFar(calls: seq<Call>, capacity: nat, i: nat, position: nat) returns (n: nat, k: nat)
    requires IsSession(calls, capacity) && i < |calls|
    requires position < |calls[0].log|
    requires |calls[i].log| - calls[i].offset - calls[i].Size() <= position
    ensures n <= i && ShowsAt(calls[n], k, position)
  {
    var c := calls[i];
    if position <= |c.log| - 1 - c.offset {
      n, k := i, |c.log| - 1 - c.offset - position;
      assert Answers(c, capacity);
      ShownHere(c, capacity, position);
    } else {
      FirstOffset(calls, capacity);
      OffsetGrows(calls, capacity, i);
      n, k := SeenSoFar(calls, capacity, i - 1, position);
    }
  }

  lemma ShownHere(c: Call, capacity: nat, position: nat)
    requires Answers(c, capacity) && capacity <= MAX_INT
    requires |c.log| - c.offset - c.Size() <= position <= |c.log| - 1 - c.offset
    ensures ShowsAt(c, |c.log| - 1 - c.offset - position, position)
  {
  }

  lemma FirstOffset(calls: seq<Call>, capacity: nat)
    requires IsSession(calls, capacity) && calls != []
    ensures calls[0].offset == 0
  {
  }

  /**
   Nothing is lost. If a session ran to its end, every entry that was in the store at the first call
   and still is at the last one was shown on some page, whatever was appended in between.
   */
  lemma PaginationOmitsNothing(calls: seq<Call>, capacity: nat, position: nat)
    requires IsSession(calls, capacity) && IsComplete(calls)
    requires InStore(calls[0].log, capacity, position) && InStore(calls[|calls| - 1].log, capacity, position)
    ensures exists n: nat, k: nat :: n < |calls| && ShowsAt(calls[n], k, position)
  {
    var last := |calls| - 1;
    assert Answers(calls[last], capacity);
    PageIsContiguous(calls[last], capacity);
    var n, k := SeenSoFar(calls, capacity, last, position);
  }

  lemma PositionsOnPage(c: Call, position: nat)
    requires ShowsRun(c)
    ensures var top := |c.log| - 1 - c.offset;
            (exists k: nat :: ShowsAt(c, k, position)) <==> top - c.Size() < position <= top
  {
    var top := |c.log| - 1 - c.offset;
    if top - c.Size() < position <= top {
      assert ShowsAt(c, top - position, position);
    }
  }

  /**
   Repeats, exactly. When `appended` entries arrive between two calls, item `j` of the next page was
   on the previous page if and only if appended - |previous page| <= j < appended. So if no more
   arrive than the previous page is long, the repeats are the first min(appended, |next page|) items.
   Every later item is older than anything on the previous page.
   */
  lemma RepeatsAfterAppends(prev: Call, next: Call, capacity: nat, j: nat)
    requires 1 <= capacity <= MAX_INT && Answers(prev, capacity) && Answers(next, capacity) && Follows(prev, next)
    requires j < next.Size()
    ensures var appended := |next.log| - |prev.log|;
            var position := |next.log| - 1 - next.offset - j;
            && appended >= 0 && position >= 0
            && ((exists k: nat :: ShowsAt(prev, k, position)) <==> appended - prev.Size() <= j < appended)
            && (j >= appended <==> position < |prev.log| - prev.offset - prev.Size())
  {
    PageIsContiguous(prev, capacity);
    PageIsContiguous(next, capacity);
    PositionsOnPage(prev, |next.log| - 1 - next.offset - j);
  }

  /** With page size p on every call, call number i asks for offset i * p, and that is below the capacity. */
  lemma {:induction false} OffsetIsMultiple(calls: seq<Call>, capacity: nat, p: nat, i: nat)
    requires IsSession(calls, capacity) && i < |calls|
    requires forall n | 0 <= n < |calls| :: PageSize(calls[n].req.pageSize) == p
    ensures calls[i].offset == i * p
    ensures i > 0 ==> i * p < capacity
  {
    if i > 0 {
      OffsetIsMultiple(calls, capacity, p, i - 1);
      OffsetGrows(calls, capacity, i);
      assert (i - 1) * p + p == i * p;
    }
  }

  /** Following tokens with page size p takes at most ceil(capacity / p) calls, whatever is appended. */
  lemma PaginationTerminates(calls: seq<Call>, capacity: nat, p: nat)
    requires IsSession(calls, capacity) && 1 <= p
    requires forall n | 0 <= n < |calls| :: PageSize(calls[n].req.pageSize) == p
    ensures |calls| <= (capacity + p - 1) / p
  {
    if |calls| >= 1 {
      var i := |calls| - 1;
      OffsetIsMultiple(calls, capacity, p, i);
      if i > 0 {
        MultipleBelow(i, p, capacity);
      } else {
        MultipleBelow(0, p, capacity);
      }
    }
  }

  lemma MultipleBelow(i: nat, p: nat, capacity: nat)
    requires p >= 1 && i * p < capacity
    ensures i + 1 <= (capacity + p - 1) / p
  {
  }

  /** With page sizes that vary from call to call, the number of calls is still at most the capacity. */
  lemma {:induction false} PaginationTerminatesForAnySizes(calls: seq<Call>, capacity: nat)
    requires IsSession(calls, capacity)
    ensures |calls| <= capacity
  {
    if |calls| >= 1 {
      OffsetIsLarge(calls, capacity, |calls| - 1);
    }
  }

  lemma {:induction false} OffsetIsLarge(calls: seq<Call>, capacity: nat, i: nat)
    requires IsSession(calls, capacity) && i < |calls|
    ensures i <= calls[i].offset
    ensures i > 0 ==> calls[i].offset < capacity
  {
    if i > 0 {
      OffsetIsLarge(calls, capacity, i - 1);
      OffsetGrows(calls, capacity, i);
    }
  }

  /** The first `n` pages, one after another. */
  function Pages(calls: seq<Call>, n: nat): seq<AuditLog>
    requires n <= |calls|
  {
    if n == 0 then [] else Pages(calls, n - 1) + calls[n - 1].resp.auditLogs
  }

  /** The page is the part of `all` that starts at the call's offset. */
  predicate IsPartOf(c: Call, all: seq<AuditLog>) {
    c.offset + c.Size() <= |all| && c.resp.auditLogs == all[c.offset..c.offset + c.Size()]
  }

  lemma PageOfQuietStore(c: Call, capacity: nat)
    requires Answers(c, capacity) && c.offset <= Min(|c.log|, capacity)
    ensures IsPartOf(c, ToAuditLogs(Newest(c.log, capacity)))
  {
  }

  predicate Adjoins(prev: Call, next: Call) {
    next.offset == prev.offset + prev.Size()
  }

  /** The calls cut `all` into consecutive parts, from its start. */
  ghost predicate Tile(calls: seq<Call>, all: seq<AuditLog>) {
    && (forall i | 0 <= i < |calls| :: IsPartOf(calls[i], all))
    && (calls != [] ==> calls[0].offset == 0)
    && (forall i, j | 0 <= i < |calls| && 0 <= j < |calls| && j == i + 1 :: Adjoins(calls[i], calls[j]))
  }

  /** Parts that start where the previous one ends add up to a prefix. */
  lemma {:induction false} PartsJoin(calls: seq<Call>, all: seq<AuditLog>, n: nat)
    requires n <= |calls| && Tile(calls, all)
    ensures n == 0 ==> Pages(calls, n) == []
    ensures n > 0 ==> var c := calls[n - 1]; IsPartOf(c, all) && Pages(calls, n) == all[..c.offset + c.Size()]
  {
    if n > 0 {
      PartsJoin(calls, all, n - 1);
      var c := calls[n - 1];
      assert IsPartOf(c, all);
      if n > 1 {
        assert Adjoins(calls[n - 2], c);
      }
      assert all[..c.offset] + all[c.offset..c.offset + c.Size()] == all[..c.offset + c.Size()];
    }
  }

  lemma TilesAddUp(calls: seq<Call>, all: seq<AuditLog>)
    requires calls != [] && Tile(calls, all)
    requires calls[|calls| - 1].offset + calls[|calls| - 1].Size() >= |all|
    ensures Pages(calls, |calls|) == all
  {
    PartsJoin(calls, all, |calls|);
    assert all[..|all|] == all;
  }

  lemma QuietCall(calls: seq<Call>, capacity: nat, i: nat)
    requires IsSession(calls, capacity) && i < |calls|
    ensures IsPartOf(calls[i], ToAuditLogs(Newest(calls[i].log, capacity)))
    ensures i == 0 ==> calls[i].offset == 0
    ensures i > 0 ==> Adjoins(calls[i - 1], calls[i])
    ensures calls[i].resp.nextPageToken == "" ==> calls[i].offset + calls[i].Size() >= Min(|calls[i].log|, capacity)
  {
    assert Answers(calls[i], capacity);
    if i > 0 {
      OffsetGrows(calls, capacity, i);
    }
    PageOfQuietStore(calls[i], capacity);
    PageIsContiguous(calls[i], capacity);
  }

  lemma QuietCallsTile(calls: seq<Call>, capacity: nat, log: seq<Entry>)
    requires IsSession(calls, capacity)
    requires forall i | 0 <= i < |calls| :: calls[i].log == log
    ensures Tile(calls, ToAuditLogs(Newest(log, capacity)))
  {
    var all := ToAuditLogs(Newest(log, capacity));
    forall i | 0 <= i < |calls| ensures IsPartOf(calls[i], all) && (i == 0 ==> calls[i].offset == 0) {
      assert calls[i].log == log;
      QuietCall(calls, capacity, i);
    }
    forall i, j | 0 <= i < |calls| && 0 <= j < |calls| && j == i + 1 ensures Adjoins(calls[i], calls[j]) {
      QuietCall(calls, capacity, j);
    }
  }

  /** On a quiet store the pages of a complete session are the whole store, newest first, each entry once. */
  lemma QuietSessionListsEverythingOnce(calls: seq<Call>, capacity: nat, log: seq<Entry>)
    requires IsSession(calls, capacity) && IsComplete(calls)
    requires forall i | 0 <= i < |calls| :: calls[i].log == log
    ensures var shown, newest := Pages(calls, |calls|), Newest(log, capacity);
            |shown| == |newest| && forall i | 0 <= i < |shown| :: Shows(shown[i], newest[i])
  {
    var all := ToAuditLogs(Newest(log, capacity));
    QuietCallsTile(calls, capacity, log);
    QuietCall(calls, capacity, |calls| - 1);
    TilesAddUp(calls, all);
  }
}
