/**
 * The chat history route, GET /api/chat/history: one page of
 * conversations, most recently updated first, each with only its newest
 * message, and the pagination figures. The query is `page` (default 1)
 * and `limit` (default 20); `skip` is `(page - 1) * limit`.
 */
module ChatHistory {
  import opened Wrappers
  import opened Strings
  import opened Seqs

  const DefaultPage: nat := 1
  const DefaultLimit: nat := 20

  /**
   * `parseInt(searchParams.get(name) || String(fallback))`; None is NaN. The
   * fallback text parses back to the fallback (`Strings.ParseIntNatToString`).
   */
  function Param(query: map<string, string>, name: string, fallback: nat): (v: Option<int>)
    ensures name in query && query[name] != "" ==> v == ParseInt(query[name])
    ensures !(name in query && query[name] != "") ==> v == Some(fallback)
  {
    if name in query && query[name] != "" then ParseInt(query[name]) else Some(fallback)
  }

  /** The numbers the query asks the database for; None is NaN. */
  datatype Window = Window(page: Option<int>, limit: Option<int>, skip: Option<int>)

  function WindowOf(query: map<string, string>): (w: Window)
    ensures w.page == Param(query, "page", DefaultPage) && w.limit == Param(query, "limit", DefaultLimit)
    ensures w.skip.Some? <==> w.page.Some? && w.limit.Some?
    ensures w.skip.Some? ==> w.skip.value == (w.page.value - 1) * w.limit.value
  {
    var page := Param(query, "page", DefaultPage);
    var limit := Param(query, "limit", DefaultLimit);
    match (page, limit)
    case (Some(p), Some(l)) => Window(page, limit, Some((p - 1) * l))
    case _ => Window(page, limit, None)
  }

  /** Without parameters: page 1 of 20, from the first conversation. */
  lemma DefaultWindow()
    ensures WindowOf(map[]) == Window(Some(1), Some(20), Some(0))
  {
  }

  /**
   * `Math.ceil(total / limit)`, None where the quotient is not finite (a
   * limit of 0 or NaN), which JSON writes as null.
   */
  function TotalPages(total: nat, limit: Option<int>): (pages: Option<int>)
    ensures limit.None? || limit.value == 0 <==> pages.None?
    ensures limit.Some? && limit.value > 0 ==> (pages.Some? && pages.value >= 0
      && pages.value * limit.value >= total && (pages.value - 1) * limit.value < total + (if total == 0 then limit.value else 0))
  {
    match limit
    case None => None
    case Some(l) =>
      if l == 0 then None
      else if l > 0 then Some((total + l - 1) / l)
      else Some(-(total / -l))
  }

  /** With a positive limit, the page count is the least number of pages that hold every conversation. */
  lemma TotalPagesIsLeast(total: nat, limit: int, pages: int)
    requires limit > 0 && pages >= 0 && pages * limit >= total
    ensures TotalPages(total, Some(limit)).value <= pages
  {
  }

  datatype Message = Message(createdAt: int, role: string, content: string)
  datatype Conversation = Conversation(id: string, title: string, updatedAt: int, messages: seq<Message>)

  function ByUpdated(c: Conversation): real {
    c.updatedAt as real
  }

  function ByCreated(m: Message): real {
    m.createdAt as real
  }

  /** `include: { messages: { orderBy: { createdAt: "desc" }, take: 1 } }` */
  function Newest(c: Conversation): (r: Conversation)
    ensures r.id == c.id && r.title == c.title && r.updatedAt == c.updatedAt
    ensures |r.messages| == if |c.messages| == 0 then 0 else 1
  {
    c.(messages := Take(SortDesc(c.messages, ByCreated), 1))
  }

  /** The conversation keeps one of its own messages, and none it drops is newer. */
  lemma NewestIsNewest(c: Conversation)
    ensures forall m :: m in Newest(c).messages ==> m in c.messages
    ensures |Newest(c).messages| == 1 ==>
      forall m :: m in multiset(c.messages) - multiset(Newest(c).messages) ==> m.createdAt <= Newest(c).messages[0].createdAt
  {
    TakeSortedDesc(c.messages, ByCreated, 1);
    TakeSortedIsTop(c.messages, ByCreated, 1);
  }

  /**
   * `findMany({ orderBy: { updatedAt: "desc" }, skip, take })` for whole
   * numbers: the conversations from position `skip` of the ordering, at
   * most `take` of them. Conversations updated at the same instant keep
   * the table's order.
   */
  function PageOf(conversations: seq<Conversation>, skip: nat, take: nat): (r: seq<Conversation>)
    ensures |r| <= take
  {
    var sorted := SortDesc(conversations, ByUpdated);
    var from := if skip < |sorted| then skip else |sorted|;
    var to := if skip + take < |sorted| then skip + take else |sorted|;
    Map(sorted[from..to], Newest)
  }

  /** Row `k` of a page is conversation `skip + k` of the ordering, with only its newest message. */
  lemma PageRow(conversations: seq<Conversation>, skip: nat, take: nat, k: nat)
    requires k < take && skip + k < |conversations|
    ensures var rows := PageOf(conversations, skip, take);
      k < |rows| && rows[k] == Newest(SortDesc(conversations, ByUpdated)[skip + k])
  {
    var sorted := SortDesc(conversations, ByUpdated);
    assert |sorted| == |conversations|;
    var to := if skip + take < |sorted| then skip + take else |sorted|;
    assert skip < |sorted| && skip + k < to;
    MapSlice(sorted, Newest, skip, to, k);
    assert PageOf(conversations, skip, take) == Map(sorted[skip..to], Newest);
  }

  /** Every conversation is on exactly the page its position in the ordering says. */
  lemma EveryConversationOnItsPage(conversations: seq<Conversation>, limit: nat, i: nat)
    requires limit > 0 && i < |conversations|
    ensures var page := i / limit + 1;
      var rows := PageOf(conversations, (page - 1) * limit, limit);
      i % limit < |rows| && rows[i % limit] == Newest(SortDesc(conversations, ByUpdated)[i])
  {
    var q, r := i / limit, i % limit;
    DivMod(i, limit);
    PageRow(conversations, q * limit, limit, r);
  }

  /** Euclidean division of a natural number by a positive one. */
  lemma DivMod(i: nat, limit: nat)
    requires limit > 0
    ensures (i / limit) * limit + i % limit == i && 0 <= i % limit < limit && i / limit >= 0
  {
  }

  /** A page is ordered by update time, newest first, and draws from the conversations. */
  lemma PageIsOrdered(conversations: seq<Conversation>, skip: nat, take: nat)
    ensures var rows := PageOf(conversations, skip, take);
      && (forall i, j :: 0 <= i < j < |rows| ==> rows[i].updatedAt >= rows[j].updatedAt)
      && (forall r :: r in rows ==> exists c :: c in conversations && r == Newest(c))
  {
    var sorted := SortDesc(conversations, ByUpdated);
    SortDescSorted(conversations, ByUpdated);
    var from := if skip < |sorted| then skip else |sorted|;
    var to := if skip + take < |sorted| then skip + take else |sorted|;
    var rows := PageOf(conversations, skip, take);
    assert rows == Map(sorted[from..to], Newest);
    forall i, j | 0 <= i < j < |rows|
      ensures rows[i].updatedAt >= rows[j].updatedAt
    {
      MapSlice(sorted, Newest, from, to, i);
      MapSlice(sorted, Newest, from, to, j);
      assert ByUpdated(sorted[from + i]) >= ByUpdated(sorted[from + j]);
    }
    forall r | r in rows
      ensures exists c :: c in conversations && r == Newest(c)
    {
      var k :| 0 <= k < |rows| && rows[k] == r;
      MapSlice(sorted, Newest, from, to, k);
      var c := sorted[from + k];
      assert c in multiset(sorted);
      assert c in multiset(conversations);
    }
  }

  /** The response: the page and its figures, or the failure. */
  datatype History =
    | Failed
    | Page(conversations: seq<Conversation>, page: Option<int>, limit: Option<int>, total: nat, totalPages: Option<int>)

  /**
   * `GET(request)`, given what the two database calls return for the
   * window the query asks for (the count of all conversations and the
   * page), or the error one of them threw.
   */
  function HistoryGet(query: map<string, string>, found: Result<seq<Conversation>, Thrown>, total: Result<nat, Thrown>): (h: History)
    ensures h.Failed? <==> found.Err? || total.Err?
    ensures h.Page? ==> h.conversations == found.value && h.total == total.value
    ensures h.Page? ==> h.page == WindowOf(query).page && h.limit == WindowOf(query).limit
    ensures h.Page? ==> h.totalPages == TotalPages(total.value, WindowOf(query).limit)
  {
    if found.Err? || total.Err? then Failed
    else
      var w := WindowOf(query);
      Page(found.value, w.page, w.limit, total.value, TotalPages(total.value, w.limit))
  }

  /**
   * When the page read is `findMany` over the parsed window and the count is
   * the number of conversations, the reply shows that page: newest update
   * first, at most `limit` rows, row k being conversation `skip + k` of the
   * ordering with only its newest message, and the total of all of them.
   */
  lemma HistoryGetShowsPage(query: map<string, string>, conversations: seq<Conversation>, k: nat)
    requires WindowOf(query).skip.Some? && WindowOf(query).skip.value >= 0 && WindowOf(query).limit.value >= 0
    ensures var w := WindowOf(query);
      var skip, limit := w.skip.value as nat, w.limit.value as nat;
      var h := HistoryGet(query, Ok(PageOf(conversations, skip, limit)), Ok(|conversations|));
      && h.Page? && h.total == |conversations| && |h.conversations| <= limit
      && (forall i, j :: 0 <= i < j < |h.conversations| ==> h.conversations[i].updatedAt >= h.conversations[j].updatedAt)
      && (k < limit && skip + k < |conversations| ==>
            k < |h.conversations| && h.conversations[k] == Newest(SortDesc(conversations, ByUpdated)[skip + k]))
  {
    var w := WindowOf(query);
    var skip, limit := w.skip.value as nat, w.limit.value as nat;
    var rows := PageOf(conversations, skip, limit);
    var h := HistoryGet(query, Ok(rows), Ok(|conversations|));
    assert h.Page? && h.conversations == rows && h.total == |conversations|;
    PageIsOrdered(conversations, skip, limit);
    if k < limit && skip + k < |conversations| {
      PageRow(conversations, skip, limit, k);
    }
  }

  const FailureMessage: string := "Failed to fetch chat history"
}
