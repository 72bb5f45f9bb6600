/** The main canvas (components/Canvas.tsx): which view it shows for the session's state,
    when the refine form submits, and when the image download does anything. */
module Canvas {
  import opened Wrappers
  import opened Types
  import opened Text

  /** The branches of `renderContent`. */
  datatype View =
    | LoadingView
    | ErrorView(message: string)
    | ImageView(src: string, refiningOverlay: bool)
    | RoomPreview(room: Room, color: Option<Color>)
    | InitialView

  /** `renderContent`: loading first, then a (truthy) error, then a (truthy) image with the
      refining overlay on top while refining, then the preview of a selected room, and the
      initial view when there is nothing at all. */
  function ViewFor(selectedRoom: Option<Room>, selectedColor: Option<Color>, generatedImage: Option<string>,
                   isLoading: bool, isRefining: bool, error: Option<string>): View
  {
    if isLoading then LoadingView
    else if Present(error) then ErrorView(error.value)
    else if Present(generatedImage) then ImageView(generatedImage.value, isRefining)
    else if selectedRoom.Some? then RoomPreview(selectedRoom.value, selectedColor)
    else InitialView
  }

  /** Each view is shown exactly under its own condition, in priority order: loading wins
      over everything, an error over an image, an image over the room preview. */
  lemma ViewPriority(selectedRoom: Option<Room>, selectedColor: Option<Color>, generatedImage: Option<string>,
                     isLoading: bool, isRefining: bool, error: Option<string>)
    ensures var v := ViewFor(selectedRoom, selectedColor, generatedImage, isLoading, isRefining, error);
            && (v.LoadingView? <==> isLoading)
            && (v.ErrorView? <==> !isLoading && Present(error))
            && (v.ImageView? <==> !isLoading && !Present(error) && Present(generatedImage))
            && (v.RoomPreview? <==> !isLoading && !Present(error) && !Present(generatedImage) && selectedRoom.Some?)
            && (v.InitialView? <==> !isLoading && !Present(error) && !Present(generatedImage) && selectedRoom.None?)
            && (v.ErrorView? ==> v.message == error.value && v.message != "")
            && (v.ImageView? ==> v.src == generatedImage.value && (v.refiningOverlay <==> isRefining))
            && (v.RoomPreview? ==> v.room == selectedRoom.value && v.color == selectedColor)
  {
  }

  /** A kept image is hidden while an error is shown: after a refinement fails the old image
      is still held but the canvas shows the error instead. */
  lemma ErrorHidesImage(selectedRoom: Option<Room>, selectedColor: Option<Color>, generatedImage: Option<string>,
                        isRefining: bool, message: string)
    requires message != ""
    ensures ViewFor(selectedRoom, selectedColor, generatedImage, false, isRefining, Some(message)) == ErrorView(message)
  {
  }

  /** `handleRefineSubmit`: calls `onRefine` with the trimmed text exactly when that text is
      non-empty and no refinement is in flight; `None` means `onRefine` is not called. */
  function RefineSubmit(refinePrompt: string, isRefining: bool): (r: Option<string>)
    ensures r.Some? <==> !AllWhitespace(refinePrompt) && !isRefining
    ensures r.Some? ==> r.value == Trim(refinePrompt) && r.value != ""
  {
    TrimEmptyIff(refinePrompt);
    var trimmed := Trim(refinePrompt);
    if trimmed != "" && !isRefining then Some(trimmed) else None
  }

  /** `disabled` of the refine button: refining, or nothing but whitespace typed. */
  predicate RefineButtonDisabled(refinePrompt: string, isRefining: bool) {
    isRefining || Trim(refinePrompt) == ""
  }

  /** Submitting the form does something exactly when its button is enabled, and what it
      passes on is the typed text without its surrounding whitespace. */
  lemma RefineSubmitMatchesButton(refinePrompt: string, isRefining: bool)
    ensures RefineSubmit(refinePrompt, isRefining).Some? <==> !RefineButtonDisabled(refinePrompt, isRefining)
    ensures RefineSubmit(refinePrompt, isRefining).Some? ==>
              var sent := RefineSubmit(refinePrompt, isRefining).value;
              !IsWhitespace(sent[0]) && !IsWhitespace(sent[|sent| - 1]) &&
              exists i, j :: 0 <= i <= j <= |refinePrompt| && sent == refinePrompt[i..j]
  {
    TrimEmptyIff(refinePrompt);
    TrimIsSlice(refinePrompt);
  }

  /** What the canvas download button produces: a link to the image under a fixed name. */
  datatype ImageLink = ImageLink(href: string, fileName: string)

  const ImageFileName := "room-design.jpeg"

  /** `handleDownload`: nothing without a (truthy) image, otherwise a link to it. */
  function DownloadImage(generatedImage: Option<string>): (r: Option<ImageLink>)
    ensures r.None? <==> !Present(generatedImage)
    ensures r.Some? ==> r.value.href == generatedImage.value && r.value.fileName == ImageFileName
  {
    if !Present(generatedImage) then None else Some(ImageLink(generatedImage.value, ImageFileName))
  }
}
