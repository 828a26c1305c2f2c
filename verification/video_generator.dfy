/**
 * The hosted front end (components/VideoGenerator.tsx): the form state and
 * its event handlers, and the per-record display rules of the video list.
 */
module VideoGenerator {
  import opened Wrappers
  import opened Js
  import opened Schema
  import opened Provider

  datatype Orientation = Portrait | Landscape

  /** The orientation notice shown under the image card. */
  datatype OrientationInfo = OrientationInfo(kind: Orientation, message: string)

  datatype FormState = FormState(
    image: Option<FileInfo>,
    audio: Option<FileInfo>,
    aspectRatio: Orientation,
    info: Option<OrientationInfo>,
    loading: bool,
    error: Option<string>)

  /** The form the component posts: always carries an aspect ratio. */
  datatype GenerateForm = GenerateForm(image: FileInfo, audio: FileInfo, aspectRatio: string)

  /** How `/api/generate` answered a submission. */
  datatype SubmitResponse =
    | Accepted                            // res.ok
    | Refused(dataError: Option<string>)  // !res.ok with the body's `error`
    | NetworkError(message: string)       // fetch or JSON parsing threw

  const BothFilesRequired := "Please select both image and audio files."
  const GenerateFailed := "Failed to generate video"

  function Name(o: Orientation): string {
    match o
    case Portrait => PortraitOrientation
    case Landscape => LandscapeOrientation
  }

  /** Two-way classification: only a strictly wider image is landscape; a square one is portrait. */
  function Classify(width: int, height: int): (o: Orientation)
    ensures o == Landscape <==> width > height
    ensures o == Portrait <==> width <= height
  {
    if width > height then Landscape else Portrait
  }

  /** `handleImageChange`: the new file (or none) is kept and the orientation notice is cleared until the image loads. */
  function ChangeImage(st: FormState, file: Option<FileInfo>): (st': FormState)
    ensures st'.image == file && st'.info.None?
    ensures st'.audio == st.audio && st'.aspectRatio == st.aspectRatio
    ensures st'.loading == st.loading && st'.error == st.error
  {
    st.(image := file, info := None)
  }

  /** The image's `onload`: the aspect ratio and the notice follow its natural size. */
  function ImageLoaded(st: FormState, width: int, height: int): (st': FormState)
    ensures st'.aspectRatio == Classify(width, height)
    ensures st'.info.Some? && st'.info.value.kind == st'.aspectRatio
    ensures st'.image == st.image && st'.audio == st.audio && st'.loading == st.loading && st'.error == st.error
  {
    var o := Classify(width, height);
    var message := if o == Landscape then "Imagem Horizontal" else "Imagem Vertical";
    st.(aspectRatio := o, info := Some(OrientationInfo(o, message)))
  }

  /** The audio input's `onChange`: only the audio file changes. */
  function ChangeAudio(st: FormState, file: Option<FileInfo>): (st': FormState)
    ensures st'.audio == file && st'.image == st.image && st'.info == st.info
    ensures st'.aspectRatio == st.aspectRatio && st'.loading == st.loading && st'.error == st.error
  {
    st.(audio := file)
  }

  /** The submit button's `disabled`. */
  predicate SubmitDisabled(st: FormState) {
    st.loading || st.image.None? || st.audio.None?
  }

  /**
   * `handleSubmit` up to the request: without both files an error is shown
   * and nothing is sent; otherwise the form is posted with the current
   * aspect ratio and the component is loading.
   */
  function BeginSubmit(st: FormState): (r: (FormState, Option<GenerateForm>))
    ensures r.1.None? <==> st.image.None? || st.audio.None?
    ensures r.1.None? ==> r.0 == st.(error := Some(BothFilesRequired))
    ensures r.1.Some? ==>
              r.1.value == GenerateForm(st.image.value, st.audio.value, Name(st.aspectRatio))
              && r.0 == st.(loading := true, error := None)
  {
    if st.image.None? || st.audio.None? then
      (st.(error := Some(BothFilesRequired)), None)
    else
      (st.(loading := true, error := None), Some(GenerateForm(st.image.value, st.audio.value, Name(st.aspectRatio))))
  }

  /**
   * `handleSubmit` after the response: on success both files and the notice
   * are reset while the aspect ratio is kept; on failure the files stay and
   * the error is shown. Loading ends either way.
   */
  function FinishSubmit(st: FormState, res: SubmitResponse): (st': FormState)
    ensures !st'.loading && st'.aspectRatio == st.aspectRatio
    ensures res.Accepted? ==> st'.image.None? && st'.audio.None? && st'.info.None? && st'.error == st.error
    ensures !res.Accepted? ==> st'.image == st.image && st'.audio == st.audio && st'.info == st.info && st'.error.Some?
    ensures res.Refused? ==> st'.error == Some(OrDefault(res.dataError, GenerateFailed))
    ensures res.NetworkError? ==> st'.error == Some(res.message)
  {
    match res
    case Accepted => st.(image := None, audio := None, info := None, loading := false)
    case Refused(e) => st.(error := Some(OrDefault(e, GenerateFailed)), loading := false)
    case NetworkError(m) => st.(error := Some(m), loading := false)
  }

  /** An enabled button always leads to a request: the button and the submit guard agree. */
  lemma EnabledButtonSubmits(st: FormState)
    requires !SubmitDisabled(st)
    ensures BeginSubmit(st).1.Some? && SubmitDisabled(BeginSubmit(st).0)
  {
  }

  /** After a successful round trip the button is disabled again until both files are chosen anew. */
  lemma SuccessNeedsNewFiles(st: FormState)
    requires !SubmitDisabled(st)
    ensures var st' := FinishSubmit(BeginSubmit(st).0, Accepted);
            SubmitDisabled(st') && BeginSubmit(st').1.None? && st'.aspectRatio == st.aspectRatio
  {
  }

  // ---------------------------------------------------------------------------
  // The video list

  /** The modal player opens only for a completed record with a non-empty url. */
  predicate CanPlay(v: Video) {
    v.status == Completed && Truthy(v.url)
  }

  /** The refresh control and the spinner overlay appear only for "processing" records. */
  predicate ShowsRefresh(v: Video) {
    v.status == Processing
  }

  datatype Badge = Green | Red | Yellow

  /** The status badge: any status other than the two terminal strings is yellow. */
  function BadgeFor(v: Video): (b: Badge)
    ensures b == Green <==> v.status == Completed
    ensures b == Red <==> v.status == Failed
    ensures b == Yellow <==> v.status != Completed && v.status != Failed
  {
    if v.status == Completed then Green else if v.status == Failed then Red else Yellow
  }

  /** A record shows exactly one of: a play overlay, a refresh control, or neither; never both. */
  lemma PlayAndRefreshExclusive(v: Video)
    ensures !(CanPlay(v) && ShowsRefresh(v))
    ensures ShowsRefresh(v) ==> BadgeFor(v) == Yellow
    ensures CanPlay(v) ==> BadgeFor(v) == Green
  {
  }
}
