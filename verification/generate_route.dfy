/**
 * The hosted submission path (app/api/generate/route.ts): `POST /api/generate`
 * uploads both files, requests generation with a callback, and records the job.
 */
module GenerateRoute {
  import opened Wrappers
  import opened Js
  import opened Http
  import opened Text
  import opened Videos
  import opened Provider

  const CloudSuffix := ".cloud"
  const SiteSuffix := ".site"
  const CallbackPath := "/heygen/callback"
  const TitlePrefix := "Video_"

  /** The multipart form fields; a field that is not there is `None`. */
  datatype GenerateRequest = GenerateRequest(image: Option<FileInfo>, audio: Option<FileInfo>, aspectRatio: Option<string>)

  datatype Failure =
    | MissingFiles                         // 400, before any upload
    | UploadFailed                         // 500, an upload reply carried no usable id
    | ProviderError(details: Option<Raw>)  // 500, a provider call threw
    | MissingConvexUrl                     // 500, CONVEX_URL unset: reading `.replace` of undefined throws
    | MalformedReply                       // 500, the generation reply lacks `data` or `data.video_id`

  /** What the handler did: the provider calls it made and either the job it recorded or the failure it replied with. */
  datatype Submission =
    | Submitted(calls: seq<ProviderCall>, payload: Payload, videoId: string)
    | Refused(calls: seq<ProviderCall>, failure: Failure)

  function Code(sub: Submission): (c: int)
    ensures c == 200 <==> sub.Submitted?
    ensures c == 400 <==> sub.Refused? && sub.failure.MissingFiles?
    ensures c == 500 <==> sub.Refused? && !sub.failure.MissingFiles?
  {
    match sub
    case Submitted(_, _, _) => Ok
    case Refused(_, MissingFiles) => BadRequest
    case Refused(_, _) => InternalError
  }

  /** `formData.get('aspectRatio') || 'portrait'`. */
  function AspectRatio(field: Option<string>): (r: string)
    ensures !Truthy(field) ==> r == PortraitOrientation
    ensures Truthy(field) ==> Some(r) == field
  {
    OrDefault(field, PortraitOrientation)
  }

  /** Only "landscape" gets a landscape frame; every other value, "square" included, gets portrait. */
  function DimensionFor(aspectRatio: string): (d: Dimension)
    ensures aspectRatio == LandscapeOrientation ==> d == Dimension(1920, 1080)
    ensures aspectRatio != LandscapeOrientation ==> d == Dimension(1080, 1920)
    ensures d.width > d.height <==> aspectRatio == LandscapeOrientation
  {
    if aspectRatio == LandscapeOrientation then Dimension(1920, 1080) else Dimension(1080, 1920)
  }

  /** `${CONVEX_URL.replace('.cloud', '.site')}/heygen/callback`. */
  function CallbackUrl(convexUrl: string): (r: string)
    ensures |r| >= |CallbackPath| && r[|r| - |CallbackPath|..] == CallbackPath
    ensures IndexOf(convexUrl, CloudSuffix).None? ==> r == convexUrl + CallbackPath
  {
    ReplaceFirst(convexUrl, CloudSuffix, SiteSuffix) + CallbackPath
  }

  function VideoTitle(now: nat): (t: string)
    ensures StartsWith(t, TitlePrefix) && |t| > |TitlePrefix|
  {
    TitlePrefix + DecimalString(now)
  }

  /** The generation request body: fit "cover", both asset ids, the callback and the frame size. */
  function BuildPayload(imageKey: string, audioAssetId: string, aspectRatio: string, callback: string, now: nat): (p: Payload)
    ensures p.imageKey == imageKey && p.audioAssetId == audioAssetId && p.fit == Cover
    ensures p.callbackId == Some(callback) && p.dimension == Some(DimensionFor(aspectRatio))
    ensures p.videoOrientation.None? && p.videoTitle == VideoTitle(now)
  {
    Payload(imageKey, VideoTitle(now), audioAssetId, Cover, None, Some(callback), Some(DimensionFor(aspectRatio)))
  }

  /**
   * Both uploads answered with truthy ids and CONVEX_URL is set: the
   * handler gets as far as the generation request.
   */
  predicate ReachesGeneration(req: GenerateRequest, convexUrl: Option<string>,
                              imageReply: Reply<UploadBody>, audioReply: Reply<UploadBody>) {
    req.image.Some? && req.audio.Some? && imageReply.Answered? && audioReply.Answered?
    && Truthy(ImageKey(imageReply.body)) && Truthy(AudioAssetId(audioReply.body)) && convexUrl.Some?
  }

  /** The generation request the handler sends once it gets that far. */
  function GenerationPayload(req: GenerateRequest, convexUrl: Option<string>,
                             imageReply: Reply<UploadBody>, audioReply: Reply<UploadBody>, now: nat): Payload
    requires ReachesGeneration(req, convexUrl, imageReply, audioReply)
  {
    BuildPayload(ImageKey(imageReply.body).value, AudioAssetId(audioReply.body).value,
                 AspectRatio(req.aspectRatio), CallbackUrl(convexUrl.value), now)
  }

  /**
   * `POST`. The replies the provider would give to the image upload, the
   * audio upload and the generation request are inputs; `now` is the clock
   * reading used for the title. Each stage is stated on its own: the first
   * call that throws decides the failure, and later calls are not made.
   */
  function Post(req: GenerateRequest, convexUrl: Option<string>, imageReply: Reply<UploadBody>,
                audioReply: Reply<UploadBody>, genReply: Reply<GenerateBody>, now: nat): (sub: Submission)
    ensures sub.Refused? && sub.failure.MissingFiles? <==> req.image.None? || req.audio.None?
    ensures sub.Refused? && sub.failure.MissingFiles? ==> sub.calls == []
    ensures req.image.Some? && req.audio.Some? ==>
              |sub.calls| >= 1 && sub.calls[0] == UploadAsset(req.image.value)
              && (imageReply.Answered? ==> |sub.calls| >= 2 && sub.calls[1] == UploadAsset(req.audio.value))
    // the image upload throws: nothing else is called
    ensures req.image.Some? && req.audio.Some? && imageReply.Rejected? ==>
              sub == Refused([UploadAsset(req.image.value)], ProviderError(ErrorDetails(imageReply.response)))
    // the audio upload throws
    ensures req.image.Some? && req.audio.Some? && imageReply.Answered? && audioReply.Rejected? ==>
              sub == Refused([UploadAsset(req.image.value), UploadAsset(req.audio.value)],
                             ProviderError(ErrorDetails(audioReply.response)))
    // both uploads answered, but an id is missing: checked only after both uploads
    ensures sub.Refused? && sub.failure.UploadFailed? <==>
              req.image.Some? && req.audio.Some? && imageReply.Answered? && audioReply.Answered?
              && (!Truthy(ImageKey(imageReply.body)) || !Truthy(AudioAssetId(audioReply.body)))
    ensures sub.Refused? && sub.failure.UploadFailed? ==>
              sub.calls == [UploadAsset(req.image.value), UploadAsset(req.audio.value)]
    // both ids usable, CONVEX_URL unset
    ensures sub.Refused? && sub.failure.MissingConvexUrl? <==>
              req.image.Some? && req.audio.Some? && imageReply.Answered? && audioReply.Answered?
              && Truthy(ImageKey(imageReply.body)) && Truthy(AudioAssetId(audioReply.body)) && convexUrl.None?
    ensures sub.Refused? && sub.failure.MissingConvexUrl? ==>
              sub.calls == [UploadAsset(req.image.value), UploadAsset(req.audio.value)]
    // the generation request is made exactly when the handler gets that far
    ensures ReachesGeneration(req, convexUrl, imageReply, audioReply) ==>
              sub.calls == [UploadAsset(req.image.value), UploadAsset(req.audio.value),
                            GenerateVideo(GenerationPayload(req, convexUrl, imageReply, audioReply, now))]
    ensures ReachesGeneration(req, convexUrl, imageReply, audioReply) && genReply.Rejected? ==>
              sub.Refused? && sub.failure == ProviderError(ErrorDetails(genReply.response))
    ensures sub.Refused? && sub.failure.MalformedReply? <==>
              ReachesGeneration(req, convexUrl, imageReply, audioReply) && genReply.Answered?
              && (genReply.body.data.None? || genReply.body.data.value.videoId.None?)
    // a fully valid run is submitted, and only a fully valid run is
    ensures sub.Submitted? <==>
              ReachesGeneration(req, convexUrl, imageReply, audioReply) && genReply.Answered?
              && genReply.body.data.Some? && genReply.body.data.value.videoId.Some?
    ensures sub.Submitted? ==>
              sub.payload == GenerationPayload(req, convexUrl, imageReply, audioReply, now)
              && sub.payload.imageKey != "" && sub.payload.audioAssetId != ""
              && genReply.body.data == Some(GenData(Some(sub.videoId)))
  {
    if req.image.None? || req.audio.None? then
      Refused([], MissingFiles)
    else
      var uploadImage := UploadAsset(req.image.value);
      var uploadAudio := UploadAsset(req.audio.value);
      match imageReply
      case Rejected(e) => Refused([uploadImage], ProviderError(ErrorDetails(e)))
      case Answered(imageBody) =>
        var imageKey := ImageKey(imageBody);
        match audioReply
        case Rejected(e) => Refused([uploadImage, uploadAudio], ProviderError(ErrorDetails(e)))
        case Answered(audioBody) =>
          var audioAssetId := AudioAssetId(audioBody);
          if !Truthy(imageKey) || !Truthy(audioAssetId) then
            Refused([uploadImage, uploadAudio], UploadFailed)
          else if convexUrl.None? then
            Refused([uploadImage, uploadAudio], MissingConvexUrl)
          else
            var payload := BuildPayload(imageKey.value, audioAssetId.value, AspectRatio(req.aspectRatio),
                                        CallbackUrl(convexUrl.value), now);
            var calls := [uploadImage, uploadAudio, GenerateVideo(payload)];
            match genReply
            case Rejected(e) => Refused(calls, ProviderError(ErrorDetails(e)))
            case Answered(genBody) =>
              match genBody.data
              case None => Refused(calls, MalformedReply)
              case Some(g) =>
                match g.videoId
                case None => Refused(calls, MalformedReply)
                case Some(id) => Submitted(calls, payload, id)
  }

  /** The store after the handler ran: a record only for a submitted job, created after generation returned. */
  function Apply(s: Store, sub: Submission, createdAt: int): (s': Store)
    ensures sub.Refused? ==> s' == s
    ensures sub.Submitted? ==> |s'| == |s| + 1 && s'[..|s|] == s && s'[|s|] == NewVideo(sub.videoId, createdAt)
  {
    match sub
    case Refused(_, _) => s
    case Submitted(_, _, id) => CreateVideo(s, id, createdAt)
  }

  /** A Convex deployment name: the host label before ".convex.cloud", without dots. */
  predicate IsDeploymentName(name: string) {
    forall k :: 0 <= k < |name| ==> name[k] != '.'
  }

  /** The callback of a Convex deployment URL points at the same deployment's HTTP-actions host. */
  lemma {:induction false} CallbackForDeployment(name: string)
    requires IsDeploymentName(name)
    ensures CallbackUrl("https://" + name + ".convex.cloud")
            == "https://" + name + ".convex.site" + CallbackPath
  {
    var p := "https://" + name + ".convex";
    var u := p + CloudSuffix;
    assert u == "https://" + name + ".convex.cloud";
    forall k | 0 <= k < |p|
      ensures !OccursAt(u, CloudSuffix, k)
    {
      if k == |name| + 8 {
        assert u[k + 2] == 'o';
      } else {
        assert u[k] == p[k] != '.';
      }
    }
    assert OccursAt(CloudSuffix, CloudSuffix, 0);
    IndexOfAfter(p, CloudSuffix, CloudSuffix);
    assert ReplaceFirst(u, CloudSuffix, SiteSuffix) == p + SiteSuffix;
  }

  /** The frame follows the submitted orientation, with "portrait" for a missing, empty or unrecognised one. */
  lemma FrameFollowsAspectRatio(req: GenerateRequest, convexUrl: Option<string>,
      imageReply: Reply<UploadBody>, audioReply: Reply<UploadBody>, genReply: Reply<GenerateBody>, now: nat)
    requires Post(req, convexUrl, imageReply, audioReply, genReply, now).Submitted?
    ensures var p := Post(req, convexUrl, imageReply, audioReply, genReply, now).payload;
            p.dimension == Some(if req.aspectRatio == Some(LandscapeOrientation) then Dimension(1920, 1080) else Dimension(1080, 1920))
  {
  }
}
