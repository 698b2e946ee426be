/**
 * The history paginator of the chat screen (hooks/useHistory.ts). A load is split into
 * its start, which decides whether and what to fetch, and its completion with the fetch's
 * outcome, so that the in-flight flag `isLoading` is visible between the two.
 */
module History {
  import opened Wrappers
  import opened Types
  import Text
  import Api

  const InitialPageSize: int := 50
  const OlderPageSize: int := 30

  /** `historyToChat`: a persisted message as a chat log entry. */
  function HistoryToChat(msg: HistoryMessage): (r: ChatMessage)
    ensures r.id == Text.IntToDecimal(msg.id) && Text.ParseInt(r.id) == Some(msg.id)
    ensures r.text == msg.content && r.direction == msg.direction && r.platform == msg.platform
    ensures r.timestamp == DateOf(msg.createdAt)
    ensures r.isStreaming.None? && r.toolsUsed.None?
  {
    Text.IntToDecimalRoundTrip(msg.id);
    ChatMessage(Text.IntToDecimal(msg.id), msg.content, msg.direction, msg.platform,
                DateOf(msg.createdAt), None, None)
  }

  /** Messages with different ids become entries with different ids. */
  lemma HistoryToChatKeepsIdsApart(a: HistoryMessage, b: HistoryMessage)
    requires a.id != b.id
    ensures HistoryToChat(a).id != HistoryToChat(b).id
  {
    assert Text.ParseInt(HistoryToChat(a).id) != Text.ParseInt(HistoryToChat(b).id);
  }

  /** `data.messages.map(historyToChat)`: one entry per message, in the same order. */
  function ToChat(msgs: seq<HistoryMessage>): (r: seq<ChatMessage>)
    ensures |r| == |msgs|
    ensures forall i :: 0 <= i < |msgs| ==> r[i] == HistoryToChat(msgs[i])
  {
    if msgs == [] then [] else [HistoryToChat(msgs[0])] + ToChat(msgs[1..])
  }

  /** The outcome of the `fetchHistory` call: its response, or the message it threw. */
  datatype FetchOutcome = Fetched(response: HistoryResponse) | Threw(message: string)

  /** `!hasMore || isLoading || !oldestId`: `loadMore` returns `[]` without fetching. */
  function MoreBlocked(hasMore: bool, isLoading: bool, oldestId: Option<int>): (r: bool)
    ensures !r <==> hasMore && !isLoading && oldestId.Some? && oldestId.value != 0
  {
    !hasMore || isLoading || oldestId.None? || oldestId == Some(0)
  }

  /** The anchor after a page: its first (oldest) message when there is one, else unchanged. */
  function NextAnchor(oldestId: Option<int>, page: HistoryResponse): (r: Option<int>)
    ensures |page.messages| > 0 ==> r == Some(page.messages[0].id)
    ensures |page.messages| == 0 ==> r == oldestId
  {
    if |page.messages| > 0 then Some(page.messages[0].id) else oldestId
  }

  /** Which of the two loads a fetch belongs to. */
  datatype Load = Initial | Older

  class Paginator {
    var hasMore: bool
    var oldestId: Option<int>
    var isLoading: bool
    /** The loads started and not yet finished; the flag alone cannot tell them apart. */
    ghost var inFlight: multiset<Load>

    constructor ()
      ensures hasMore && oldestId == None && !isLoading && inFlight == multiset{}
    {
      hasMore, oldestId, isLoading := true, None, false;
      inFlight := multiset{};
    }

    /** `loadInitial` up to its fetch: the newest page, 50 messages, no anchor, with no guard. */
    method StartInitial() returns (q: Api.HistoryQuery)
      modifies this
      ensures q == Api.HistoryQuery(None, Some(InitialPageSize), None)
      ensures isLoading && hasMore == old(hasMore) && oldestId == old(oldestId)
      ensures inFlight == old(inFlight) + multiset{Initial}
    {
      isLoading := true;
      inFlight := inFlight + multiset{Initial};
      q := Api.HistoryQuery(None, Some(InitialPageSize), None);
    }

    /**
     * `loadMore` up to its fetch: nothing (the call returns `[]`) when no more pages are
     * known, a load is in flight or there is no anchor; otherwise the 30 messages before
     * the anchor.
     */
    method StartMore() returns (q: Option<Api.HistoryQuery>)
      modifies this
      ensures q.None? <==> MoreBlocked(old(hasMore), old(isLoading), old(oldestId))
      ensures q.None? ==> isLoading == old(isLoading) && inFlight == old(inFlight)
      ensures q.Some? ==>
        q.value == Api.HistoryQuery(old(oldestId), Some(OlderPageSize), None) && isLoading &&
        inFlight == old(inFlight) + multiset{Older}
      ensures hasMore == old(hasMore) && oldestId == old(oldestId)
    {
      if MoreBlocked(hasMore, isLoading, oldestId) {
        q := None;
        return;
      }
      isLoading := true;
      inFlight := inFlight + multiset{Older};
      q := Some(Api.HistoryQuery(oldestId, Some(OlderPageSize), None));
    }

    /**
     * The end of either load: the flag drops; a page sets `hasMore` from the response and,
     * when not empty, moves the anchor to its first message, and is returned mapped; a
     * throw changes neither and is passed on.
     */
    method Finish(ghost load: Load, outcome: FetchOutcome) returns (r: Result<seq<ChatMessage>, string>)
      requires load in inFlight
      modifies this
      ensures !isLoading && inFlight == old(inFlight) - multiset{load}
      ensures outcome.Fetched? ==>
        var page := outcome.response;
        && hasMore == page.hasMore
        && oldestId == NextAnchor(old(oldestId), page)
        && r == Success(ToChat(page.messages))
      ensures outcome.Threw? ==>
        hasMore == old(hasMore) && oldestId == old(oldestId) && r == Failure(outcome.message)
    {
      inFlight := inFlight - multiset{load};
      match outcome
      case Threw(message) =>
        isLoading := false;
        r := Failure(message);
      case Fetched(data) =>
        hasMore := data.hasMore;
        var messages := ToChat(data.messages);
        oldestId := NextAnchor(oldestId, data);
        isLoading := false;
        r := Success(messages);
    }
  }

  /**
   * `loadInitial` does not look at the in-flight flag, so it can overlap an older-page
   * load. When the newest page says there is no more history and the older load then
   * completes with `hasMore` true, paging is open again without a new initial load.
   */
  method StaleOlderPageReopensPaging() returns (exhausted: bool, reopened: bool, fetched: bool)
    ensures !exhausted && reopened && fetched
  {
    var p := new Paginator();
    var first := HistoryMessage(40, "telegram", Inbound, "hi", "2024-01-01T00:00:00Z");
    var _ := p.StartInitial();
    var _ := p.Finish(Initial, Fetched(HistoryResponse([first], true, None)));
    var older := p.StartMore();
    var _ := p.StartInitial();
    var _ := p.Finish(Initial, Fetched(HistoryResponse([first], false, None)));
    exhausted := p.hasMore;
    var _ := p.Finish(Older, Fetched(HistoryResponse([], true, None)));
    reopened := p.hasMore;
    fetched := older.Some?;
  }

  /**
   * The paginator with `loadInitial` guarded by the in-flight flag like `loadMore`, so
   * loads never overlap: once a page reports no more history, only an initial load can
   * reopen paging.
   */
  class SerialPaginator {
    var hasMore: bool
    var oldestId: Option<int>
    var isLoading: bool
    /** The load in flight, if any. */
    ghost var inFlight: Option<Load>

    ghost predicate Valid()
      reads this
    {
      (isLoading <==> inFlight.Some?) && (inFlight == Some(Older) ==> hasMore)
    }

    constructor ()
      ensures Valid() && hasMore && oldestId == None && !isLoading
    {
      hasMore, oldestId, isLoading := true, None, false;
      inFlight := None;
    }

    /** The initial load, skipped while another load is in flight. */
    method StartInitial() returns (q: Option<Api.HistoryQuery>)
      requires Valid()
      modifies this
      ensures Valid()
      ensures q.None? <==> old(isLoading)
      ensures q.None? ==> inFlight == old(inFlight)
      ensures q.Some? ==> q.value == Api.HistoryQuery(None, Some(InitialPageSize), None) && inFlight == Some(Initial)
      ensures hasMore == old(hasMore) && oldestId == old(oldestId)
    {
      if isLoading {
        q := None;
        return;
      }
      isLoading := true;
      inFlight := Some(Initial);
      q := Some(Api.HistoryQuery(None, Some(InitialPageSize), None));
    }

    /** `loadMore` up to its fetch, as in `Paginator.StartMore`. */
    method StartMore() returns (q: Option<Api.HistoryQuery>)
      requires Valid()
      modifies this
      ensures Valid()
      ensures q.None? <==> MoreBlocked(old(hasMore), old(isLoading), old(oldestId))
      ensures q.None? ==> inFlight == old(inFlight)
      ensures q.Some? ==>
        q.value == Api.HistoryQuery(old(oldestId), Some(OlderPageSize), None) && inFlight == Some(Older)
      ensures hasMore == old(hasMore) && oldestId == old(oldestId)
    {
      if MoreBlocked(hasMore, isLoading, oldestId) {
        q := None;
        return;
      }
      isLoading := true;
      inFlight := Some(Older);
      q := Some(Api.HistoryQuery(oldestId, Some(OlderPageSize), None));
    }

    /** The end of the load in flight: as `Paginator.Finish`; only an initial load reopens paging. */
    method Finish(outcome: FetchOutcome) returns (r: Result<seq<ChatMessage>, string>)
      requires Valid() && isLoading
      modifies this
      ensures Valid() && !isLoading
      ensures !old(hasMore) && hasMore ==> old(inFlight) == Some(Initial)
      ensures outcome.Fetched? ==>
        var page := outcome.response;
        && hasMore == page.hasMore
        && oldestId == NextAnchor(old(oldestId), page)
        && r == Success(ToChat(page.messages))
      ensures outcome.Threw? ==>
        hasMore == old(hasMore) && oldestId == old(oldestId) && r == Failure(outcome.message)
    {
      assert inFlight.Some?;
      assert inFlight.value.Initial? || inFlight.value.Older?;
      assert inFlight == Some(Older) ==> hasMore;
      inFlight := None;
      match outcome
      case Threw(message) =>
        isLoading := false;
        r := Failure(message);
      case Fetched(data) =>
        hasMore := data.hasMore;
        var messages := ToChat(data.messages);
        oldestId := NextAnchor(oldestId, data);
        isLoading := false;
        r := Success(messages);
    }
  }

  /** Distinct message ids give distinct entry ids, so the entries can key a list. */
  lemma ToChatKeepsIdsApart(msgs: seq<HistoryMessage>)
    requires forall i, j :: 0 <= i < j < |msgs| ==> msgs[i].id != msgs[j].id
    ensures forall i, j :: 0 <= i < j < |msgs| ==> ToChat(msgs)[i].id != ToChat(msgs)[j].id
  {
    var r := ToChat(msgs);
    forall i, j | 0 <= i < j < |msgs|
      ensures r[i].id != r[j].id
    {
      HistoryToChatKeepsIdsApart(msgs[i], msgs[j]);
    }
  }
}
