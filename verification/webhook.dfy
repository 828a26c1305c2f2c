/**
 * The provider callback (convex/http.ts): `POST /heygen/callback` with a
 * parsed JSON body `{ event_type, event_data }`.
 */
module Webhook {
  import opened Wrappers
  import opened Js
  import opened Schema
  import opened Videos

  const SuccessEvent := "avatar_video.success"
  const FailEvent := "avatar_video.fail"
  const UnknownError := "Unknown error"

  datatype EventData = EventData(videoId: Option<string>, url: Option<string>, msg: Option<string>)
  datatype WebhookBody = WebhookBody(eventType: Option<string>, eventData: Option<EventData>)

  /**
   * `Acknowledged` is the handler returning a response, after at most one
   * `updateStatus` call. `Threw` is the handler raising: `event_data` is
   * missing for a recognised event (a property read of undefined), or
   * `video_id` is missing (the mutation's argument validation rejects it).
   */
  datatype WebhookOutcome =
    | Acknowledged(update: Option<UpdateArgs>, status: int, body: string)
    | Threw

  predicate IsHandledEvent(eventType: Option<string>) {
    eventType == Some(SuccessEvent) || eventType == Some(FailEvent)
  }

  function Handle(b: WebhookBody): (o: WebhookOutcome)
    ensures o.Acknowledged? ==> o.status == 200 && o.body == "OK"
    ensures !IsHandledEvent(b.eventType) ==> o.Acknowledged? && o.update.None?
    ensures o.Threw? <==> IsHandledEvent(b.eventType) && (b.eventData.None? || b.eventData.value.videoId.None?)
    ensures o.Acknowledged? && o.update.Some? ==>
              var a := o.update.value;
              IsHandledEvent(b.eventType) && Some(a.heygenId) == b.eventData.value.videoId
              && a.thumbnailUrl.None?
    ensures o.Acknowledged? && b.eventType == Some(SuccessEvent) ==>
              o.update.Some? && var a := o.update.value;
              a.status == Completed && a.url == b.eventData.value.url && a.error.None?
    ensures o.Acknowledged? && b.eventType == Some(FailEvent) ==>
              o.update.Some? && var a := o.update.value;
              a.status == Failed && a.url.None? && a.error.Some?
              && (Truthy(b.eventData.value.msg) ==> a.error == b.eventData.value.msg)
              && (!Truthy(b.eventData.value.msg) ==> a.error == Some(UnknownError))
  {
    if !IsHandledEvent(b.eventType) then
      Acknowledged(None, 200, "OK")
    else
      match b.eventData
      case None => Threw
      case Some(d) =>
        match d.videoId
        case None => Threw
        case Some(id) =>
          var a :=
            if b.eventType == Some(SuccessEvent) then UpdateArgs(id, Completed, d.url, None, None)
            else UpdateArgs(id, Failed, None, None, Some(OrDefault(d.msg, UnknownError)));
          Acknowledged(Some(a), 200, "OK")
  }

  /**
   * The store after the handler ran. A handler that threw, or ignored the
   * event, changed nothing; otherwise no record is added, removed or
   * re-keyed, and only the oldest record with the event's id can change.
   */
  function Apply(s: Store, o: WebhookOutcome): (s': Store)
    ensures o.Threw? || o.update.None? ==> s' == s
    ensures |s'| == |s| && Ids(s') == Ids(s)
    ensures forall j :: 0 <= j < |s| && s'[j] != s[j] ==>
              o.Acknowledged? && o.update.Some? && IsFirstMatch(s, o.update.value.heygenId, j)
  {
    if o.Acknowledged? && o.update.Some? then
      UpdateKeepsIds(s, o.update.value);
      UpdateStatus(s, o.update.value)
    else s
  }

  function Deliver(s: Store, b: WebhookBody): Store {
    Apply(s, Handle(b))
  }

  /** A redelivered event leaves the store as the first delivery left it. */
  lemma DeliverTwice(s: Store, b: WebhookBody)
    ensures Deliver(Deliver(s, b), b) == Deliver(s, b)
  {
  }

  /**
   * A success event replaces the record's optionals wholesale: a thumbnail
   * or error stored by an earlier poll is removed, because the mutation is
   * called without them.
   */
  lemma SuccessClearsThumbnail(s: Store, id: string, url: Option<string>, i: nat)
    requires IsFirstMatch(s, id, i)
    ensures var s' := Deliver(s, WebhookBody(Some(SuccessEvent), Some(EventData(Some(id), url, None))));
            s'[i].status == Completed && s'[i].url == url
            && s'[i].thumbnailUrl.None? && s'[i].error.None?
  {
  }
}
