/**
 * The standalone front end (public/app.js): two upload cards with
 * drag-and-drop, a three-way orientation notice and the generate button.
 */
module App {
  import opened Wrappers
  import opened Text
  import opened Provider

  datatype Orientation = Landscape | Portrait | Square

  datatype Card = ImageCard | AudioCard

  /**
   * The page state: the chosen files, each card's `selected` highlight, the
   * orientation detected for the last image picked through the file input,
   * the button's `disabled` flag, whether a request is in flight, and the
   * result box: hidden (`None`) or shown with the success or error style.
   */
  datatype PageState = PageState(
    image: Option<FileInfo>,
    audio: Option<FileInfo>,
    imageSelected: bool,
    audioSelected: bool,
    detected: Option<Orientation>,
    buttonDisabled: bool,
    loading: bool,
    result: Option<bool>)

  /** The form posted to `/api/generate-video`. */
  datatype VideoForm = VideoForm(image: FileInfo, audio: FileInfo, aspectRatio: Option<string>)

  /** The page after the `load` handler: nothing chosen, button disabled, no result shown. */
  const Initial := PageState(None, None, false, false, None, true, false, None)

  function Name(o: Orientation): string {
    match o
    case Landscape => LandscapeOrientation
    case Portrait => PortraitOrientation
    case Square => SquareOrientation
  }

  /** `detectImageOrientation`: three-way, with equal sides classified as square. */
  function Detect(width: int, height: int): (o: Orientation)
    ensures o == Landscape <==> width > height
    ensures o == Portrait <==> height > width
    ensures o == Square <==> width == height
  {
    if width > height then Landscape else if height > width then Portrait else Square
  }

  /** `updateButtonState`: enabled exactly when both files are chosen. */
  function UpdateButton(st: PageState): (st': PageState)
    ensures !st'.buttonDisabled <==> st.image.Some? && st.audio.Some?
    ensures st' == st.(buttonDisabled := st'.buttonDisabled)
  {
    st.(buttonDisabled := !(st.image.Some? && st.audio.Some?))
  }

  function HasFile(st: PageState, card: Card): bool {
    if card == ImageCard then st.image.Some? else st.audio.Some?
  }

  function Highlighted(st: PageState, card: Card): bool {
    if card == ImageCard then st.imageSelected else st.audioSelected
  }

  function SetHighlight(st: PageState, card: Card, on: bool): (st': PageState)
    ensures Highlighted(st', card) == on
    ensures Highlighted(st', if card == ImageCard then AudioCard else ImageCard)
            == Highlighted(st, if card == ImageCard then AudioCard else ImageCard)
    ensures st' == st.(imageSelected := st'.imageSelected, audioSelected := st'.audioSelected)
  {
    if card == ImageCard then st.(imageSelected := on) else st.(audioSelected := on)
  }

  /** The image input's `change`: a chosen file is kept and highlighted; detection runs asynchronously. */
  function PickImage(st: PageState, file: Option<FileInfo>): (st': PageState)
    ensures file.None? ==> st' == st
    ensures file.Some? ==> st'.image == file && st'.imageSelected && st'.audio == st.audio
    ensures file.Some? ==> (!st'.buttonDisabled <==> st.audio.Some?)
    ensures st' == st.(image := st'.image, imageSelected := st'.imageSelected, buttonDisabled := st'.buttonDisabled)
  {
    match file
    case None => st
    case Some(f) => UpdateButton(st.(image := file, imageSelected := true))
  }

  /** The audio input's `change`. */
  function PickAudio(st: PageState, file: Option<FileInfo>): (st': PageState)
    ensures file.None? ==> st' == st
    ensures file.Some? ==> st'.audio == file && st'.audioSelected && st'.image == st.image
    ensures file.Some? ==> (!st'.buttonDisabled <==> st.image.Some?)
    ensures st' == st.(audio := st'.audio, audioSelected := st'.audioSelected, buttonDisabled := st'.buttonDisabled)
  {
    match file
    case None => st
    case Some(f) => UpdateButton(st.(audio := file, audioSelected := true))
  }

  /**
   * The image's `onload` inside `detectImageOrientation`: the measured
   * orientation is remembered for the next submit; nothing else changes.
   */
  function OrientationDetected(st: PageState, width: int, height: int): (st': PageState)
    ensures st'.detected.Some?
    ensures st'.detected.value == Landscape <==> width > height
    ensures st'.detected.value == Portrait <==> height > width
    ensures st'.(detected := st.detected) == st
  {
    st.(detected := Some(Detect(width, height)))
  }

  /** `dragover` highlights the card; nothing else changes. */
  function DragOver(st: PageState, card: Card): (st': PageState)
    ensures Highlighted(st', card)
    ensures if card == ImageCard then st' == st.(imageSelected := true) else st' == st.(audioSelected := true)
  {
    SetHighlight(st, card, true)
  }

  /** `dragleave` removes the highlight only from a card that holds no file. */
  function DragLeave(st: PageState, card: Card): (st': PageState)
    ensures Highlighted(st', card) <==> Highlighted(st, card) && HasFile(st, card)
    ensures if card == ImageCard then st' == st.(imageSelected := st'.imageSelected)
            else st' == st.(audioSelected := st'.audioSelected)
  {
    if !HasFile(st, card) then SetHighlight(st, card, false) else st
  }

  /** Whether a dropped file's type suits the card. */
  predicate Accepts(card: Card, f: FileInfo) {
    if card == ImageCard then StartsWith(f.mimeType, "image/") else StartsWith(f.mimeType, "audio/")
  }

  /**
   * `drop`: a file of the card's kind replaces that card's file and
   * highlights it; any other file changes no file. The button state is
   * recomputed for every dropped file. A dropped image is not measured, so
   * `detected` keeps describing the previous image.
   */
  function Drop(st: PageState, card: Card, file: Option<FileInfo>): (st': PageState)
    ensures file.None? ==> st' == st
    ensures file.Some? && !Accepts(card, file.value) ==> st' == UpdateButton(st)
    ensures file.Some? && Accepts(card, file.value) ==>
              (if card == ImageCard then st'.image == file && st'.audio == st.audio
               else st'.audio == file && st'.image == st.image)
              && Highlighted(st', card)
              && (!st'.buttonDisabled <==> st'.image.Some? && st'.audio.Some?)
    ensures if card == ImageCard
            then st' == st.(image := st'.image, imageSelected := st'.imageSelected, buttonDisabled := st'.buttonDisabled)
            else st' == st.(audio := st'.audio, audioSelected := st'.audioSelected, buttonDisabled := st'.buttonDisabled)
  {
    match file
    case None => st
    case Some(f) =>
      if !Accepts(card, f) then UpdateButton(st)
      else if card == ImageCard then UpdateButton(st.(image := file, imageSelected := true))
      else UpdateButton(st.(audio := file, audioSelected := true))
  }

  /**
   * The form's `submit`: without both files the result box shows an error
   * and nothing is sent; otherwise the result box is hidden, the page is
   * loading, the button disabled, and the form carries `aspectRatio` only
   * when an orientation has been detected.
   */
  function Submit(st: PageState): (r: (PageState, Option<VideoForm>))
    ensures r.1.None? <==> st.image.None? || st.audio.None?
    ensures r.1.None? ==> r.0 == st.(result := Some(false))
    ensures r.1.Some? ==>
              r.1.value.image == st.image.value && r.1.value.audio == st.audio.value
              && (r.1.value.aspectRatio.Some? <==> st.detected.Some?)
              && (st.detected.Some? ==> r.1.value.aspectRatio == Some(Name(st.detected.value)))
              && r.0.loading && r.0.buttonDisabled && r.0.result.None?
    ensures r.0 == st.(loading := r.0.loading, buttonDisabled := r.0.buttonDisabled, result := r.0.result)
  {
    if st.image.None? || st.audio.None? then (st.(result := Some(false)), None)
    else
      var aspect := match st.detected case None => None case Some(o) => Some(Name(o));
      (st.(loading := true, buttonDisabled := true, result := None),
       Some(VideoForm(st.image.value, st.audio.value, aspect)))
  }

  /**
   * The response (or the thrown error) is shown and `setLoading(false)` runs.
   * `ok` is `response.ok`; a failed fetch or an unparsable body counts as
   * `false`.
   */
  function Finish(st: PageState, ok: bool): (st': PageState)
    ensures !st'.loading && (!st'.buttonDisabled <==> st.image.Some? && st.audio.Some?)
    ensures st'.result == Some(ok)
    ensures st' == st.(loading := st'.loading, buttonDisabled := st'.buttonDisabled, result := st'.result)
  {
    UpdateButton(st.(loading := false, result := Some(ok)))
  }

  // ---------------------------------------------------------------------------
  // Page invariants

  /** A card holding a file is highlighted, and when idle the button is enabled exactly with both files. */
  predicate Consistent(st: PageState) {
    (st.image.Some? ==> st.imageSelected)
    && (st.audio.Some? ==> st.audioSelected)
    && (!st.loading ==> (st.buttonDisabled <==> st.image.None? || st.audio.None?))
  }

  datatype Event =
    | PickImageEvent(file: Option<FileInfo>)
    | PickAudioEvent(file: Option<FileInfo>)
    | DetectedEvent(width: int, height: int)
    | DragOverEvent(card: Card)
    | DragLeaveEvent(card: Card)
    | DropEvent(card: Card, file: Option<FileInfo>)
    | SubmitEvent
    | FinishEvent(ok: bool)

  function Step(st: PageState, e: Event): PageState {
    match e
    case PickImageEvent(f) => PickImage(st, f)
    case PickAudioEvent(f) => PickAudio(st, f)
    case DetectedEvent(w, h) => OrientationDetected(st, w, h)
    case DragOverEvent(c) => DragOver(st, c)
    case DragLeaveEvent(c) => DragLeave(st, c)
    case DropEvent(c, f) => Drop(st, c, f)
    case SubmitEvent => Submit(st).0
    case FinishEvent(ok) => Finish(st, ok)
  }

  function Run(st: PageState, events: seq<Event>): PageState
    decreases |events|
  {
    if |events| == 0 then st else Run(Step(st, events[0]), events[1..])
  }

  /** Every handler keeps the page consistent: a chosen file's card never loses its highlight. */
  lemma StepKeepsConsistent(st: PageState, e: Event)
    requires Consistent(st)
    ensures Consistent(Step(st, e))
  {
  }

  /** The page as the `load` handler leaves it is consistent. */
  lemma InitialConsistent()
    ensures Consistent(Initial)
    ensures Consistent(Run(Initial, [SubmitEvent]))
  {
  }

  /** From the loaded page, any sequence of events keeps the page consistent. */
  lemma {:induction false} RunKeepsConsistent(st: PageState, events: seq<Event>)
    requires Consistent(st)
    ensures Consistent(Run(st, events))
    decreases |events|
  {
    if |events| > 0 {
      StepKeepsConsistent(st, events[0]);
      RunKeepsConsistent(Step(st, events[0]), events[1..]);
    }
  }

  /** The orientation measured for the last picked image is what the next submit sends. */
  lemma DetectedOrientationIsSent(st: PageState, width: int, height: int)
    requires st.image.Some? && st.audio.Some?
    ensures var sent := Submit(OrientationDetected(st, width, height)).1;
            sent == Some(VideoForm(st.image.value, st.audio.value, Some(Name(Detect(width, height)))))
            && (sent.value.aspectRatio == Some(LandscapeOrientation) <==> width > height)
  {
  }

  /** A submit without both files shows an error and sends nothing; a later successful one hides it again. */
  lemma ResultFollowsLastSubmit(st: PageState, f: FileInfo)
    requires st.image.Some? && st.audio.None?
    ensures var failed := Submit(st);
            failed.1.None? && failed.0.result == Some(false)
            && var retried := Submit(PickAudio(failed.0, Some(f)));
            retried.1.Some? && retried.0.result.None? && Finish(retried.0, true).result == Some(true)
  {
  }

  /** While a request is in flight, a drop that completes the pair re-enables the button. */
  lemma DropWhileLoadingEnables(st: PageState, f: FileInfo)
    requires st.loading && st.image.Some? && Accepts(AudioCard, f)
    ensures var st' := Drop(st, AudioCard, Some(f));
            st'.loading && !st'.buttonDisabled
  {
  }
}
