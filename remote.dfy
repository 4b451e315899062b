/**
 * The remote source client: shaping of one page reply (`fetch_batch`) and the
 * remote record count (`get_count_from_bitrix`). The HTTP requests themselves
 * are inputs: a reply is the decoded body, or None when the request raised.
 */
module Remote {
  import opened Wrappers
  import opened Json
  import opened Entities

  /** What `fetch_batch` returns: the page's items and its `next` value (None is Null). */
  datatype Page = Page(items: seq<Value>, next: Value)

  /**
   * `data["result"]["tasks"]` for tasks and `data["result"]` otherwise; None
   * when the subscript raises (not a dict, key missing).
   */
  function ResultField(e: Entity, data: Value): (r: Option<Value>)
    ensures e != Tasks ==> (r.Some? <==> data.Object? && "result" in data.fields)
    ensures e != Tasks && r.Some? ==> r.value == data.fields["result"]
    ensures e == Tasks ==> (r.Some? <==> data.Object? && "result" in data.fields
                                         && data.fields["result"].Object?
                                         && "tasks" in data.fields["result"].fields)
    ensures e == Tasks && r.Some? ==> r.value == data.fields["result"].fields["tasks"]
  {
    if !data.Object? || "result" !in data.fields then None
    else
      var res := data.fields["result"];
      if e != Tasks then Some(res)
      else if res.Object? && "tasks" in res.fields then Some(res.fields["tasks"])
      else None
  }

  /**
   * `fetch_batch`: never raises. A failed request, a body without the result
   * field, or a result without `len` (the log line raises) gives ([], None);
   * a result that is not a list gives no items but keeps `next`.
   */
  function FetchBatch(e: Entity, reply: Option<Value>): (r: Page)
    ensures reply.None? ==> r == Page([], Null)
    ensures r.items != [] ==> reply.Some? && ResultField(e, reply.value) == Some(List(r.items))
    ensures reply.Some? && ResultField(e, reply.value).Some? && ResultField(e, reply.value).value.List?
            ==> r == Page(ResultField(e, reply.value).value.elems, Get(reply.value.fields, "next", Null))
    ensures r.next != Null ==> reply.Some? && ResultField(e, reply.value).Some?
                               && "next" in reply.value.fields && r.next == reply.value.fields["next"]
  {
    match reply
    case None => Page([], Null)
    case Some(data) =>
      match ResultField(e, data)
      case None => Page([], Null)
      case Some(items) =>
        if !Sized(items) then Page([], Null)
        else Page(if items.List? then items.elems else [], Get(data.fields, "next", Null))
  }

  /** A failed fetch is absorbed as an empty page with no continuation. */
  lemma FetchFailureIsEmptyPage(e: Entity, reply: Option<Value>)
    requires reply.None? || ResultField(e, reply.value).None?
    ensures FetchBatch(e, reply) == Page([], Null)
  {
  }

  /** The count reply for deals and tasks: a failed request, or a body whose `total` may be absent. */
  datatype CountReply = CountFailed | CountBody(total: Option<int>)

  /**
   * One reply of the projects listing used for counting: a failed request, or
   * the result list (absent is empty) and the `next` start when present.
   */
  datatype GroupPage = GroupPageFailed | GroupPage(result: seq<Value>, next: Option<int>)

  /** The outcome of following the page chain. */
  datatype Tally = Counted(n: nat) | RequestFailed | OutOfPages

  /**
   * The number of records on the chain of pages from `start`: the sum of the
   * result lengths, stopping at an empty result or a page without `next`.
   * `limit` bounds the pages followed (a chain can loop forever).
   */
  function ChainTally(page: int -> GroupPage, start: int, limit: nat): Tally
    decreases limit
  {
    if limit == 0 then OutOfPages
    else match page(start)
      case GroupPageFailed => RequestFailed
      case GroupPage(result, next) =>
        if result == [] then Counted(0)
        else if next.None? then Counted(|result|)
        else Plus(|result|, ChainTally(page, next.value, limit - 1))
  }

  function Plus(k: nat, t: Tally): Tally {
    if t.Counted? then Counted(k + t.n) else t
  }

  /** What `get_count_from_bitrix` returns for a tally: a failed request anywhere counts 0. */
  function Report(t: Tally): Option<int> {
    match t
    case Counted(n) => Some(n)
    case RequestFailed => Some(0)
    case OutOfPages => None
  }

  /** Following more pages never changes a tally that did not run out of pages. */
  lemma {:induction false} TallyStable(page: int -> GroupPage, start: int, limit: nat, extra: nat)
    requires ChainTally(page, start, limit) != OutOfPages
    ensures ChainTally(page, start, limit + extra) == ChainTally(page, start, limit)
    decreases limit
  {
    assert limit != 0;
    match page(start)
    case GroupPageFailed =>
    case GroupPage(result, next) =>
      if result != [] && next.Some? {
        assert ChainTally(page, next.value, limit - 1) != OutOfPages;
        TallyStable(page, next.value, limit - 1, extra);
      }
  }

  /** A failed request on any page of the chain makes the whole count 0. */
  lemma {:induction false} FailureZeroesCount(page: int -> GroupPage, start: int, limit: nat, hops: nat)
    requires Reaches(page, start, limit, hops) && page(Hop(page, start, hops)) == GroupPageFailed
    ensures Report(ChainTally(page, start, limit)) == Some(0)
    decreases hops
  {
    if hops > 0 {
      FailureZeroesCount(page, page(start).next.value, limit - 1, hops - 1);
    }
  }

  /** The start of the page reached after `hops` continuations from `start`. */
  function Hop(page: int -> GroupPage, start: int, hops: nat): int
    decreases hops
  {
    if hops == 0 then start
    else match page(start)
      case GroupPage(result, Some(n)) => Hop(page, n, hops - 1)
      case _ => start
  }

  /** The chain from `start` really continues `hops` times within `limit` pages. */
  ghost predicate Reaches(page: int -> GroupPage, start: int, limit: nat, hops: nat)
    decreases hops
  {
    hops < limit &&
    (hops > 0 ==> page(start).GroupPage? && page(start).result != [] && page(start).next.Some?
                  && Reaches(page, page(start).next.value, limit - 1, hops - 1))
  }

  /** The projects branch of `get_count_from_bitrix`: follow `next` and add up lengths. */
  method CountProjects(page: int -> GroupPage, limit: nat) returns (r: Option<int>)
    ensures r == Report(ChainTally(page, 0, limit))
  {
    var total: nat := 0;
    var start := 0;
    var left := limit;
    while true
      invariant Plus(total, ChainTally(page, start, left)) == ChainTally(page, 0, limit)
      decreases left
    {
      if left == 0 {
        return None;
      }
      match page(start)
      case GroupPageFailed =>
        return Some(0);
      case GroupPage(result, next) =>
        if result == [] {
          return Some(total);
        }
        total := total + |result|;
        if next.None? {
          return Some(total);
        }
        start := next.value;
        left := left - 1;
    }
  }

  /**
   * What `get_count_from_bitrix` returns: the reply's `total` (absent is 0) for
   * deals and tasks, the tally of the page chain for projects; a failed request is 0.
   * None stands for a chain longer than `limit` pages.
   */
  function CountResult(e: Entity, reply: CountReply, page: int -> GroupPage, limit: nat): Option<int> {
    if e == Projects then Report(ChainTally(page, 0, limit))
    else Some(if reply.CountBody? then reply.total.GetOr(0) else 0)
  }

  /** `get_count_from_bitrix`: one request for deals and tasks, the page chain for projects. */
  method RemoteCount(e: Entity, reply: CountReply, page: int -> GroupPage, limit: nat)
    returns (r: Option<int>)
    ensures r == CountResult(e, reply, page, limit)
  {
    if e == Projects {
      r := CountProjects(page, limit);
    } else if reply.CountBody? {
      r := Some(reply.total.GetOr(0));
    } else {
      r := Some(0);
    }
  }
}
