/**
 * The pull path (app/api/status/route.ts): `GET /api/status?videoId=…`
 * queries the provider and writes the mapped status to the store.
 */
module StatusRoute {
  import opened Wrappers
  import opened Js
  import opened Http
  import opened Schema
  import opened Videos
  import opened Provider

  datatype PollReply =
    | MissingVideoId
    | PollFailed(details: Option<Raw>)
    | Polled(status: string, url: Option<string>)

  /** `queried` says whether the provider was called; `update` is the `updateStatus` call made, if any. */
  datatype PollOutcome = PollOutcome(queried: bool, update: Option<UpdateArgs>, reply: PollReply)

  /** The HTTP status of each reply. */
  function Code(r: PollReply): (c: int)
    ensures c == 400 <==> r.MissingVideoId?
    ensures c == 500 <==> r.PollFailed?
    ensures c == 200 <==> r.Polled?
  {
    match r
    case MissingVideoId => BadRequest
    case PollFailed(_) => InternalError
    case Polled(_, _) => Ok
  }

  /** Provider status to stored status: only the exact strings "completed" and "failed" are terminal. */
  function MapStatus(providerStatus: Option<string>): (r: string)
    ensures IsLifecycleStatus(r)
    ensures r == Completed <==> providerStatus == Some(Completed)
    ensures r == Failed <==> providerStatus == Some(Failed)
  {
    if providerStatus == Some(Completed) then Completed
    else if providerStatus == Some(Failed) then Failed
    else Processing
  }

  function Poll(videoId: Option<string>, provider: Reply<StatusBody>): (o: PollOutcome)
    ensures !Truthy(videoId) <==> o.reply.MissingVideoId?
    ensures !Truthy(videoId) ==> !o.queried && o.update.None?
    ensures o.update.Some? <==> o.reply.Polled?
    ensures o.reply.PollFailed? ==> o.queried && o.update.None?
    ensures o.reply.PollFailed? <==>
              Truthy(videoId) && (provider.Rejected? || provider.body.data.None?)
    ensures provider.Rejected? && o.reply.PollFailed? ==> o.reply.details == ErrorDetails(provider.response)
    ensures provider.Answered? && o.reply.PollFailed? ==> o.reply.details.None?
    ensures o.reply.Polled? ==> o.queried
    ensures o.reply.Polled? ==>
              var d := provider.body.data.value;
              o.update.Some? && var a := o.update.value;
              Some(a.heygenId) == videoId
              && a.status == MapStatus(d.status)
              && (a.url.None? <==> !Truthy(d.videoUrl)) && (a.url.Some? ==> a.url == d.videoUrl)
              && (a.thumbnailUrl.None? <==> !Truthy(d.thumbnailUrl)) && (a.thumbnailUrl.Some? ==> a.thumbnailUrl == d.thumbnailUrl)
              && (a.error.None? <==> !Truthy(d.error)) && (a.error.Some? ==> a.error == d.error)
              && o.reply.status == a.status && o.reply.url == d.videoUrl
  {
    if !Truthy(videoId) then
      PollOutcome(false, None, MissingVideoId)
    else
      match provider
      case Rejected(response) => PollOutcome(true, None, PollFailed(ErrorDetails(response)))
      case Answered(body) =>
        match body.data
        case None => PollOutcome(true, None, PollFailed(None))
        case Some(d) =>
          var status := MapStatus(d.status);
          var a := UpdateArgs(videoId.value, status, OrUndefined(d.videoUrl),
                              OrUndefined(d.thumbnailUrl), OrUndefined(d.error));
          PollOutcome(true, Some(a), Polled(status, d.videoUrl))
  }

  /**
   * The store after the route ran. A poll without an update changed nothing;
   * otherwise no record is added, removed or re-keyed, and only the oldest
   * record with the polled id can change.
   */
  function Apply(s: Store, o: PollOutcome): (s': Store)
    ensures o.update.None? ==> s' == s
    ensures |s'| == |s| && Ids(s') == Ids(s)
    ensures forall j :: 0 <= j < |s| && s'[j] != s[j] ==>
              o.update.Some? && IsFirstMatch(s, o.update.value.heygenId, j)
  {
    match o.update
    case None => s
    case Some(a) =>
      UpdateKeepsIds(s, a);
      UpdateStatus(s, a)
  }

  /** A missing videoId is answered without consulting the provider: any two replies give the same outcome. */
  lemma MissingIdIgnoresProvider(videoId: Option<string>, p: Reply<StatusBody>, q: Reply<StatusBody>)
    requires !Truthy(videoId)
    ensures Poll(videoId, p) == Poll(videoId, q)
  {
  }

  /**
   * A stale "still in flight" reply (any status other than the two terminal
   * strings) moves a record back to "processing", whatever it held before,
   * and a reply without a video url removes the stored url.
   */
  lemma StalePollRegresses(s: Store, id: string, i: nat, d: StatusData)
    requires id != "" && IsFirstMatch(s, id, i) && s[i].status == Completed
    requires d.status != Some(Completed) && d.status != Some(Failed) && !Truthy(d.videoUrl)
    ensures var s' := Apply(s, Poll(Some(id), Answered(StatusBody(Some(d)))));
            s'[i].status == Processing && s'[i].url.None?
  {
  }

  /** Polling twice with the same provider reply leaves the store as one poll does. */
  lemma PollTwice(s: Store, videoId: Option<string>, p: Reply<StatusBody>)
    ensures var o := Poll(videoId, p); Apply(Apply(s, o), o) == Apply(s, o)
  {
  }
}
