/**
 * The standalone server (server.js): `POST /api/generate-video` uploads both
 * files and requests a portrait video. It keeps no job record.
 */
module Server {
  import opened Wrappers
  import opened Js
  import opened Http
  import opened Provider

  /** The multipart fields; `aspectRatio` may be sent but is never read. */
  datatype ServerRequest = ServerRequest(image: Option<FileInfo>, audio: Option<FileInfo>, aspectRatio: Option<string>)

  datatype ServerReply =
    | MissingApiKey
    | MissingFiles
    | ImageUploadFailed(heygenResponse: UploadBody)
    | AudioUploadFailed(heygenResponse: UploadBody)
    | RequestError(status: int, heygenError: Option<Raw>)
    | Started(imageUpload: UploadBody, audioUpload: UploadBody, videoGeneration: GenerateBody)

  datatype ServerOutcome = ServerOutcome(calls: seq<ProviderCall>, reply: ServerReply)

  /** `error.response?.status || 500`. */
  function ErrorStatus(response: Option<ErrorResponse>): (c: int)
    ensures response.Some? && response.value.status != 0 ==> c == response.value.status
    ensures response.None? || response.value.status == 0 ==> c == 500
    ensures c != 0
  {
    if response.Some? && response.value.status != 0 then response.value.status else InternalError
  }

  function Code(r: ServerReply): (c: int)
    ensures r.Started? ==> c == 200
    ensures r.MissingFiles? ==> c == 400
    ensures r.MissingApiKey? || r.ImageUploadFailed? || r.AudioUploadFailed? ==> c == 500
    ensures r.RequestError? ==> c == r.status
  {
    match r
    case MissingApiKey => InternalError
    case MissingFiles => BadRequest
    case ImageUploadFailed(_) => InternalError
    case AudioUploadFailed(_) => InternalError
    case RequestError(status, _) => status
    case Started(_, _, _) => Ok
  }

  /** The generation request of this server: always portrait, fit "cover", no callback, no explicit frame. */
  function BuildPayload(imageKey: string, audioAssetId: string, title: string): (p: Payload)
    ensures p.imageKey == imageKey && p.audioAssetId == audioAssetId && p.videoTitle == title
    ensures p.videoOrientation == Some(PortraitOrientation) && p.fit == Cover
    ensures p.callbackId.None? && p.dimension.None?
  {
    Payload(imageKey, title, audioAssetId, Cover, Some(PortraitOrientation), None, None)
  }

  /** The key is set, both files came, and both uploads answered with truthy ids: the handler requests the video. */
  predicate ReachesGeneration(apiKey: Option<string>, req: ServerRequest,
                              imageReply: Reply<UploadBody>, audioReply: Reply<UploadBody>) {
    Truthy(apiKey) && req.image.Some? && req.audio.Some? && imageReply.Answered? && audioReply.Answered?
    && Truthy(ImageKey(imageReply.body)) && Truthy(AudioAssetId(audioReply.body))
  }

  /**
   * The handler. `apiKey` is HEYGEN_API_KEY, the replies are what the
   * provider would answer to each call, `title` is the clock-derived title.
   * Each stage is stated on its own: the first failing step decides the
   * reply, and no later call is made.
   */
  function PostGenerateVideo(apiKey: Option<string>, req: ServerRequest, imageReply: Reply<UploadBody>,
                         audioReply: Reply<UploadBody>, genReply: Reply<GenerateBody>, title: string): (o: ServerOutcome)
    ensures !Truthy(apiKey) <==> o.reply.MissingApiKey?
    ensures o.reply.MissingApiKey? || o.reply.MissingFiles? ==> o.calls == []
    ensures o.reply.MissingFiles? <==> Truthy(apiKey) && (req.image.None? || req.audio.None?)
    // the image upload throws
    ensures Truthy(apiKey) && req.image.Some? && req.audio.Some? && imageReply.Rejected? ==>
              o == ServerOutcome([UploadAsset(req.image.value)],
                                 RequestError(ErrorStatus(imageReply.response), ErrorDetails(imageReply.response)))
    // the image upload answers without a usable key: the audio is never uploaded
    ensures o.reply.ImageUploadFailed? <==>
              Truthy(apiKey) && req.image.Some? && req.audio.Some?
              && imageReply.Answered? && !Truthy(ImageKey(imageReply.body))
    ensures o.reply.ImageUploadFailed? ==>
              o.calls == [UploadAsset(req.image.value)] && o.reply.heygenResponse == imageReply.body
    // the audio upload throws
    ensures Truthy(apiKey) && req.image.Some? && req.audio.Some? && imageReply.Answered?
            && Truthy(ImageKey(imageReply.body)) && audioReply.Rejected? ==>
              o == ServerOutcome([UploadAsset(req.image.value), UploadAsset(req.audio.value)],
                                 RequestError(ErrorStatus(audioReply.response), ErrorDetails(audioReply.response)))
    // the audio upload answers without a usable id
    ensures o.reply.AudioUploadFailed? <==>
              Truthy(apiKey) && req.image.Some? && req.audio.Some? && imageReply.Answered?
              && Truthy(ImageKey(imageReply.body)) && audioReply.Answered? && !Truthy(AudioAssetId(audioReply.body))
    ensures o.reply.AudioUploadFailed? ==>
              o.calls == [UploadAsset(req.image.value), UploadAsset(req.audio.value)]
              && o.reply.heygenResponse == audioReply.body
    ensures o.reply.RequestError? ==>
              exists e :: o.reply == RequestError(ErrorStatus(e), ErrorDetails(e))
                          && (imageReply == Rejected(e) || audioReply == Rejected(e) || genReply == Rejected(e))
    // the generation request: made exactly when the handler gets that far, always with the fixed portrait payload
    ensures ReachesGeneration(apiKey, req, imageReply, audioReply) ==>
              o.calls == [UploadAsset(req.image.value), UploadAsset(req.audio.value),
                          GenerateVideo(BuildPayload(ImageKey(imageReply.body).value,
                                                     AudioAssetId(audioReply.body).value, title))]
    ensures !ReachesGeneration(apiKey, req, imageReply, audioReply) ==>
              forall k :: 0 <= k < |o.calls| ==> !o.calls[k].GenerateVideo?
    ensures ReachesGeneration(apiKey, req, imageReply, audioReply) && genReply.Rejected? ==>
              o.reply == RequestError(ErrorStatus(genReply.response), ErrorDetails(genReply.response))
    ensures o.reply.Started? <==> ReachesGeneration(apiKey, req, imageReply, audioReply) && genReply.Answered?
    ensures o.reply.Started? ==> o.reply == Started(imageReply.body, audioReply.body, genReply.body)
  {
    if !Truthy(apiKey) then ServerOutcome([], MissingApiKey)
    else if req.image.None? || req.audio.None? then ServerOutcome([], MissingFiles)
    else
      var uploadImage := UploadAsset(req.image.value);
      match imageReply
      case Rejected(e) => ServerOutcome([uploadImage], RequestError(ErrorStatus(e), ErrorDetails(e)))
      case Answered(imageBody) =>
        var imageKey := ImageKey(imageBody);
        if !Truthy(imageKey) then ServerOutcome([uploadImage], ImageUploadFailed(imageBody))
        else
          var uploadAudio := UploadAsset(req.audio.value);
          match audioReply
          case Rejected(e) => ServerOutcome([uploadImage, uploadAudio], RequestError(ErrorStatus(e), ErrorDetails(e)))
          case Answered(audioBody) =>
            var audioAssetId := AudioAssetId(audioBody);
            if !Truthy(audioAssetId) then ServerOutcome([uploadImage, uploadAudio], AudioUploadFailed(audioBody))
            else
              var calls := [uploadImage, uploadAudio, GenerateVideo(BuildPayload(imageKey.value, audioAssetId.value, title))];
              match genReply
              case Rejected(e) => ServerOutcome(calls, RequestError(ErrorStatus(e), ErrorDetails(e)))
              case Answered(genBody) => ServerOutcome(calls, Started(imageBody, audioBody, genBody))
  }

  /** The aspect ratio a client sends changes nothing: two requests that differ only there are handled alike. */
  lemma AspectRatioIgnored(apiKey: Option<string>, req: ServerRequest, other: Option<string>,
                           imageReply: Reply<UploadBody>, audioReply: Reply<UploadBody>, genReply: Reply<GenerateBody>, title: string)
    ensures PostGenerateVideo(apiKey, req, imageReply, audioReply, genReply, title)
            == PostGenerateVideo(apiKey, req.(aspectRatio := other), imageReply, audioReply, genReply, title)
  {
  }

  /** Without an image key the audio file is never uploaded, whatever the audio upload would have answered. */
  lemma NoAudioUploadWithoutImageKey(apiKey: Option<string>, req: ServerRequest,
      imageBody: UploadBody, audioReply: Reply<UploadBody>, genReply: Reply<GenerateBody>, title: string)
    requires Truthy(apiKey) && req.image.Some? && req.audio.Some? && !Truthy(ImageKey(imageBody))
    ensures var o := PostGenerateVideo(apiKey, req, Answered(imageBody), audioReply, genReply, title);
            o.calls == [UploadAsset(req.image.value)] && o.reply == ImageUploadFailed(imageBody)
            && Code(o.reply) == 500
  {
  }
}
