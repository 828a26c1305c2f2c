/**
 * The job lifecycle across components: a submission creates the record, and
 * the poll route and the webhook drive it through the one store mutation.
 */
module Lifecycle {
  import opened Wrappers
  import opened Js
  import opened Schema
  import opened Videos
  import opened Provider
  import Webhook
  import StatusRoute
  import GenerateRoute
  import Server
  import VideoGenerator
  import App

  /**
   * Poll and webhook race with no ordering between them: whichever update
   * for the record arrives last decides the whole record, and the other
   * leaves no trace.
   */
  lemma LastArrivalDecides(s: Store, b: Webhook.WebhookBody, p: StatusRoute.PollOutcome)
    requires Webhook.Handle(b).Acknowledged? && Webhook.Handle(b).update.Some?
    requires p.update.Some? && p.update.value.heygenId == Webhook.Handle(b).update.value.heygenId
    ensures StatusRoute.Apply(Webhook.Deliver(s, b), p) == StatusRoute.Apply(s, p)
    ensures Webhook.Deliver(StatusRoute.Apply(s, p), b) == Webhook.Deliver(s, b)
  {
  }

  /**
   * A completion webhook followed by a stale poll reply ("waiting",
   * "processing" or anything unrecognised, with no video url) leaves the
   * record in "processing" with no url: the player is gone and the refresh
   * control is back.
   */
  lemma StalePollUndoesCompletion(s: Store, id: string, i: nat, url: string, d: StatusData)
    requires id != "" && IsFirstMatch(s, id, i)
    requires d.status != Some(Completed) && d.status != Some(Failed) && !Truthy(d.videoUrl)
    ensures var b := Webhook.WebhookBody(Some(Webhook.SuccessEvent), Some(Webhook.EventData(Some(id), Some(url), None)));
            var afterHook := Webhook.Deliver(s, b);
            var afterPoll := StatusRoute.Apply(afterHook, StatusRoute.Poll(Some(id), Answered(StatusBody(Some(d)))));
            afterHook[i].status == Completed && afterHook[i].url == Some(url)
            && afterPoll[i].status == Processing && afterPoll[i].url.None?
            && (url != "" ==> VideoGenerator.CanPlay(afterHook[i]))
            && !VideoGenerator.CanPlay(afterPoll[i]) && VideoGenerator.ShowsRefresh(afterPoll[i])
  {
  }

  /**
   * The submission that creates a record and the webhook that names its id
   * meet: on a store without that id, the webhook's update lands on the
   * new record.
   */
  lemma WebhookFindsSubmittedJob(s: Store, sub: GenerateRoute.Submission, createdAt: int, url: Option<string>)
    requires sub.Submitted? && Absent(s, sub.videoId)
    ensures var s1 := GenerateRoute.Apply(s, sub, createdAt);
            var b := Webhook.WebhookBody(Some(Webhook.SuccessEvent), Some(Webhook.EventData(Some(sub.videoId), url, None)));
            var s2 := Webhook.Deliver(s1, b);
            |s2| == |s| + 1 && s2[..|s|] == s
            && s2[|s|] == Video(sub.videoId, Completed, url, None, None, createdAt)
  {
  }

  /**
   * The hosted front end and route agree on the frame: an image measured
   * wider than tall gives a 1920x1080 request, any other (square included)
   * 1080x1920.
   */
  lemma FrameFollowsMeasuredImage(st: VideoGenerator.FormState, width: int, height: int)
    requires st.image.Some? && st.audio.Some?
    ensures var form := VideoGenerator.BeginSubmit(VideoGenerator.ImageLoaded(st, width, height)).1;
            form.Some?
            && GenerateRoute.DimensionFor(GenerateRoute.AspectRatio(Some(form.value.aspectRatio)))
               == (if width > height then Dimension(1920, 1080) else Dimension(1080, 1920))
  {
  }

  /**
   * The standalone page may send "landscape" or "square", but the server's
   * generation request is portrait for every form it receives.
   */
  lemma StandaloneRequestsPortrait(page: App.PageState, apiKey: Option<string>,
      imageReply: Reply<UploadBody>, audioReply: Reply<UploadBody>, genReply: Reply<GenerateBody>, title: string)
    requires App.Submit(page).1.Some?
    ensures var form := App.Submit(page).1.value;
            var o := Server.PostGenerateVideo(apiKey, Server.ServerRequest(Some(form.image), Some(form.audio), form.aspectRatio),
                                              imageReply, audioReply, genReply, title);
            forall k :: 0 <= k < |o.calls| && o.calls[k].GenerateVideo? ==>
              o.calls[k].payload.videoOrientation == Some(PortraitOrientation) && o.calls[k].payload.dimension.None?
  {
  }

  /**
   * Submit a job, a poll reports it completed, then a stale poll reports
   * "processing": the record returns to the state it was created in.
   */
  lemma CompletedJobRegresses(req: GenerateRoute.GenerateRequest, convexUrl: Option<string>,
      imageReply: Reply<UploadBody>, audioReply: Reply<UploadBody>, id: string, url: string, now: nat)
    requires GenerateRoute.ReachesGeneration(req, convexUrl, imageReply, audioReply)
    requires id != "" && url != ""
    ensures var sub := GenerateRoute.Post(req, convexUrl, imageReply, audioReply,
                                          Answered(GenerateBody(Some(GenData(Some(id))))), now);
            var s1 := GenerateRoute.Apply([], sub, now);
            var s2 := StatusRoute.Apply(s1, StatusRoute.Poll(Some(id),
                        Answered(StatusBody(Some(StatusData(Some(Completed), Some(url), None, None))))));
            var s3 := StatusRoute.Apply(s2, StatusRoute.Poll(Some(id),
                        Answered(StatusBody(Some(StatusData(Some(Processing), None, None, None))))));
            sub.Submitted? && s1 == [NewVideo(id, now)]
            && s2 == [Video(id, Completed, Some(url), None, None, now)]
            && s3 == s1
  {
    var sub := GenerateRoute.Post(req, convexUrl, imageReply, audioReply,
                                  Answered(GenerateBody(Some(GenData(Some(id))))), now);
    assert sub.Submitted? && sub.videoId == id;
    var s1 := GenerateRoute.Apply([], sub, now);
    assert s1 == [NewVideo(id, now)];
    assert IsFirstMatch(s1, id, 0);
    var done := UpdateArgs(id, Completed, Some(url), None, None);
    assert StatusRoute.Poll(Some(id), Answered(StatusBody(Some(StatusData(Some(Completed), Some(url), None, None))))).update
           == Some(done);
    var s2 := UpdateStatus(s1, done);
    assert s2 == [Video(id, Completed, Some(url), None, None, now)];
    var stale := UpdateArgs(id, Processing, None, None, None);
    assert StatusRoute.Poll(Some(id), Answered(StatusBody(Some(StatusData(Some(Processing), None, None, None))))).update
           == Some(stale);
    assert IsFirstMatch(s2, id, 0);
    assert UpdateStatus(s2, stale) == s1;
  }
}
