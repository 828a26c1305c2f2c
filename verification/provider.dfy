/**
 * The video provider as the handlers see it. Every reply is an input of the
 * model; the handlers' outcomes record which calls they made, in order.
 */
module Provider {
  import opened Wrappers
  import opened Js

  /** The `video_orientation` / `aspectRatio` values the clients and handlers exchange. */
  const PortraitOrientation := "portrait"
  const LandscapeOrientation := "landscape"
  const SquareOrientation := "square"

  /** An uploaded file: its name and declared MIME type (the bytes play no part in any decision). */
  datatype FileInfo = FileInfo(name: string, mimeType: string)

  /** A provider JSON body kept only to be echoed back; it is an object, hence truthy. */
  datatype Raw = Raw(text: string)

  /** The `response` of a failed HTTP call: its status and its body, if any. */
  datatype ErrorResponse = ErrorResponse(status: int, data: Option<Raw>)

  /** The outcome of one provider call: a body, or a thrown error with or without a response. */
  datatype Reply<T> = Answered(body: T) | Rejected(response: Option<ErrorResponse>)

  /** The `data` of an asset-upload reply: the keys different API versions use for the asset id. */
  datatype AssetData = AssetData(imageKey: Option<string>, assetId: Option<string>, id: Option<string>)
  datatype UploadBody = UploadBody(data: Option<AssetData>)

  /** The `data` of a generation reply. */
  datatype GenData = GenData(videoId: Option<string>)
  datatype GenerateBody = GenerateBody(data: Option<GenData>)

  /** The `data` of a status-query reply. */
  datatype StatusData = StatusData(
    status: Option<string>,
    videoUrl: Option<string>,
    thumbnailUrl: Option<string>,
    error: Option<string>)
  datatype StatusBody = StatusBody(data: Option<StatusData>)

  datatype Dimension = Dimension(width: int, height: int)

  /** A generation request body. The two handlers fill different optional parts. */
  datatype Payload = Payload(
    imageKey: string,
    videoTitle: string,
    audioAssetId: string,
    fit: string,
    videoOrientation: Option<string>,
    callbackId: Option<string>,
    dimension: Option<Dimension>)

  /** One outbound provider call. */
  datatype ProviderCall = UploadAsset(file: FileInfo) | GenerateVideo(payload: Payload)

  /** The fit policy both handlers request: crop to fill. */
  const Cover := "cover"

  /** `resp.data?.image_key || resp.data?.asset_id`. */
  function ImageKey(b: UploadBody): (r: Option<string>)
    ensures Truthy(r) <==> b.data.Some? && (Truthy(b.data.value.imageKey) || Truthy(b.data.value.assetId))
    ensures b.data.Some? && Truthy(b.data.value.imageKey) ==> r == b.data.value.imageKey
    ensures b.data.Some? && !Truthy(b.data.value.imageKey) ==> r == b.data.value.assetId
    ensures b.data.None? ==> r.None?
  {
    match b.data
    case None => None
    case Some(d) => Or(d.imageKey, d.assetId)
  }

  /** `resp.data?.asset_id || resp.data?.id`. */
  function AudioAssetId(b: UploadBody): (r: Option<string>)
    ensures Truthy(r) <==> b.data.Some? && (Truthy(b.data.value.assetId) || Truthy(b.data.value.id))
    ensures b.data.Some? && Truthy(b.data.value.assetId) ==> r == b.data.value.assetId
    ensures b.data.Some? && !Truthy(b.data.value.assetId) ==> r == b.data.value.id
    ensures b.data.None? ==> r.None?
  {
    match b.data
    case None => None
    case Some(d) => Or(d.assetId, d.id)
  }

  /**
   * The two fallbacks share only `asset_id`: a reply carrying it serves as
   * either upload, while a reply carrying only `id` serves as audio but not
   * as image, and one carrying only `image_key` as image but not as audio.
   */
  lemma FallbacksShareAssetId(imageKey: Option<string>, assetId: Option<string>, id: Option<string>)
    ensures var b := UploadBody(Some(AssetData(imageKey, assetId, id)));
            Truthy(assetId) ==> Truthy(ImageKey(b)) && AudioAssetId(b) == assetId
    ensures Truthy(id) ==> var b := UploadBody(Some(AssetData(None, None, id)));
            !Truthy(ImageKey(b)) && AudioAssetId(b) == id
    ensures Truthy(imageKey) ==> var b := UploadBody(Some(AssetData(imageKey, None, None)));
            ImageKey(b) == imageKey && !Truthy(AudioAssetId(b))
  {
  }

  /** `error.response?.data`. */
  function ErrorDetails(response: Option<ErrorResponse>): (r: Option<Raw>)
    ensures r.Some? ==> response.Some? && r == response.value.data
    ensures response.Some? ==> r == response.value.data
  {
    match response
    case None => None
    case Some(e) => e.data
  }
}
