/** The ListAuditLogs call of the management API over the audit store. */
module AuditListing {
  import opened Wrappers
  import opened AuditStores
  import opened Decimal

  const DEFAULT_PAGE_SIZE: int := 20
  const MAX_PAGE_SIZE: int := 100
  const MAX_INT32: int := 0x7FFF_FFFF

  /** The page size is a protobuf int32 and may be zero or negative. */
  datatype Request = Request(pageSize: int, pageToken: string)

  /** An audit entry as the API shows it: without the request id. */
  datatype AuditLog = AuditLog(id: string, clientID: string, toolName: string, decision: Decision, timestamp: string, metadata: map<string, string>)

  datatype Response = Response(auditLogs: seq<AuditLog>, nextPageToken: string, totalCount: int)

  datatype Status = InvalidToken | NegativeToken

  /** The API shows this entry: its id, client, tool, decision, time and metadata, each in its own field. */
  predicate Shows(log: AuditLog, e: Entry) {
    && log.id == e.id && log.clientID == e.clientID && log.toolName == e.toolName
    && log.decision == e.decision && log.timestamp == e.timestamp && log.metadata == e.metadata
  }

  function ToAuditLog(e: Entry): (log: AuditLog)
    ensures Shows(log, e)
  {
    AuditLog(e.id, e.clientID, e.toolName, e.decision, e.timestamp, e.metadata)
  }

  function ToAuditLogs(entries: seq<Entry>): (r: seq<AuditLog>)
    ensures |r| == |entries|
    ensures forall i | 0 <= i < |r| :: r[i] == ToAuditLog(entries[i])
  {
    seq(|entries|, i requires 0 <= i < |entries| => ToAuditLog(entries[i]))
  }

  function PageSize(requested: int): (n: nat)
    ensures 1 <= n <= 100
    ensures requested <= 0 ==> n == 20
    ensures 1 <= requested <= 100 ==> n == requested
    ensures requested > 100 ==> n == 100
  {
    if requested <= 0 then DEFAULT_PAGE_SIZE else if requested > MAX_PAGE_SIZE then MAX_PAGE_SIZE else requested
  }

  function ParseToken(token: string): Result<nat, Status> {
    if token == "" then Ok(0)
    else
      match Atoi(token)
      case None => Err(InvalidToken)
      case Some(n) => if n < 0 then Err(NegativeToken) else Ok(n)
  }

  /** The answer when the store holds `newest`. */
  function Listing(newest: seq<Entry>, req: Request): Result<Response, Status> {
    match ParseToken(req.pageToken)
    case Err(status) => Err(status)
    case Ok(offset) =>
      var page := Slice(newest, offset, PageSize(req.pageSize));
      var next := offset + |page|;
      Ok(Response(ToAuditLogs(page), if next < |newest| then Itoa(next) else "", Min(|newest|, MAX_INT32)))
  }

  /** These logs are the page of the entries that starts at the offset, each entry shown in full. */
  predicate IsPage(logs: seq<AuditLog>, newest: seq<Entry>, offset: nat, pageSize: int) {
    && |logs| == (if offset < |newest| then Min(PageSize(pageSize), |newest| - offset) else 0)
    && forall k | 0 <= k < |logs| :: Shows(logs[k], newest[offset + k])
  }

  /** The request's page of these entries, with a token for the next page if there is one. */
  predicate HoldsPage(resp: Response, newest: seq<Entry>, offset: nat, pageSize: int) {
    var next := offset + |resp.auditLogs|;
    && IsPage(resp.auditLogs, newest, offset, pageSize)
    && (if next < |newest| then resp.nextPageToken != "" && Atoi(resp.nextPageToken) == Some(next)
        else resp.nextPageToken == "")
    && resp.totalCount == if |newest| <= 0x7FFF_FFFF then |newest| else 0x7FFF_FFFF
  }

  /**
   What the call answers. A token that is no number, or a negative one, is an error of its own. Otherwise
   the answer is the page at that offset, field by field, and its token stands for where the page ends.
   */
  lemma ListingMeans(newest: seq<Entry>, req: Request)
    requires |newest| <= MAX_INT
    ensures var r := Listing(newest, req);
            var offset := if req.pageToken == "" then Some(0) else Atoi(req.pageToken);
            match offset
            case None => r == Err(InvalidToken)
            case Some(n) => if n < 0 then r == Err(NegativeToken) else r.Ok? && HoldsPage(r.value, newest, n, req.pageSize)
  {
    var r := Listing(newest, req);
    if r.Ok? {
      var offset := ParseToken(req.pageToken).value;
      var next := offset + |r.value.auditLogs|;
      if next < |newest| {
        AtoiOfItoa(next);
      }
    }
  }

  /** In a store of any size, a token that stands for an offset is answered with the page there. */
  lemma ListingIsPage(newest: seq<Entry>, req: Request, offset: nat)
    requires ParseToken(req.pageToken) == Ok(offset)
    ensures var r := Listing(newest, req);
            r.Ok? && IsPage(r.value.auditLogs, newest, offset, req.pageSize)
  {
  }

  /** The loop that builds the response. */
  method BuildLogs(entries: seq<Entry>) returns (logs: seq<AuditLog>)
    ensures logs == ToAuditLogs(entries)
  {
    logs := [];
    for i := 0 to |entries|
      invariant |logs| == i
      invariant forall j | 0 <= j < i :: logs[j] == ToAuditLog(entries[j])
    {
      logs := logs + [ToAuditLog(entries[i])];
    }
  }

  class Server {
    const auditStore: Store

    constructor (store: Store)
      ensures auditStore == store
    {
      auditStore := store;
    }

    method ListAuditLogs(req: Request) returns (r: Result<Response, Status>)
      requires auditStore.Valid()
      ensures r == Listing(Newest(auditStore.log, auditStore.entries.Length), req)
    {
      var pageSize := req.pageSize;
      if pageSize <= 0 {
        pageSize := DEFAULT_PAGE_SIZE;
      }
      if pageSize > MAX_PAGE_SIZE {
        pageSize := MAX_PAGE_SIZE;
      }
      var offset := 0;
      if req.pageToken != "" {
        var parsed := Atoi(req.pageToken);
        if parsed.None? {
          return Err(InvalidToken);
        }
        if parsed.value < 0 {
          return Err(NegativeToken);
        }
        offset := parsed.value;
      }
      var entries, total := auditStore.List(offset, pageSize);
      var logs := BuildLogs(entries);
      var nextPageToken := "";
      var nextOffset := offset + |entries|;
      if nextOffset < total {
        nextPageToken := Itoa(nextOffset);
      }
      var totalCount := if total <= MAX_INT32 then total else MAX_INT32;
      return Ok(Response(logs, nextPageToken, totalCount));
    }
  }
}
