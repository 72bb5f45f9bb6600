/** The prompt compiler and the two image clients (services/geminiService.ts).
    The SDK calls themselves are not modelled: each client receives the response
    the endpoint gives (or the message it throws) as a parameter, and reports the
    request it would have sent, so that "no request was made" can be stated. */
module GeminiService {
  import opened Wrappers
  import opened Types
  import opened Text

  // ---------------------------------------------------------------- prompt compiler

  const FrontSentence := "The photo must be taken from the perspective of someone standing at the entrance of the room, looking straight ahead."
  const CornerSentence := "The photo must be a wide-angle shot from a high corner of the room, looking down into the space."
  const WindowSentence := "The photo must be from the perspective of looking into the room from outside a large window."
  const CloseupSentence := "The photo must be a close-up shot focusing on a key piece of furniture, with the rest of the room softly blurred in the background."

  /** `PERSPECTIVE_MAP`: one fixed camera sentence per perspective. */
  function PerspectiveSentence(p: Perspective): string {
    match p
    case Front => FrontSentence
    case Corner => CornerSentence
    case Window => WindowSentence
    case Closeup => CloseupSentence
  }

  /** The lookup is total and no two perspectives share a camera sentence. */
  lemma PerspectiveSentencesDistinct(p: Perspective, q: Perspective)
    ensures PerspectiveSentence(p) != ""
    ensures PerspectiveSentence(p) == PerspectiveSentence(q) ==> p == q
  {
  }

  /** The paragraphs a prompt is made of, in the order they are emitted. */
  datatype Section =
    | Camera(sentence: string)
    | ImageStyle
    | PrimarySubject(roomDescription: string)
    | ColorScheme(colorName: string)
    | FurnitureClause(descriptions: seq<string>)
    | DecorClause(descriptions: seq<string>)
    | Atmosphere

  const CameraLead := "**Critical Camera Instruction:** You MUST generate the image from this exact perspective: "
  const ParagraphBreak := "\n\n"
  const ListSeparator := ", "
  const StyleText := "**Image Style:** Create a high-resolution, 8k, photorealistic photograph of a professionally designed interior."
  const SubjectLead := "**Primary Subject:** A "
  const ColorLead := "**Key Feature & Color Scheme:** The dominant feature is the wall color, which must be a clear and distinct "
  const ColorTail := ". All walls must be painted this color."
  const FurnitureLead := "**Furniture:** The room contains the following furniture: "
  const DecorLead := "**Decor Accents:** The room is decorated with: "
  const AtmosphereText := "**Atmosphere:** The overall style is modern, clean, and inviting. The lighting should be beautiful and highlight the room's features, especially the wall color."

  /** The text of one paragraph. */
  function Render(s: Section): string {
    match s
    case Camera(sentence) => CameraLead + sentence
    case ImageStyle => StyleText
    case PrimarySubject(description) => SubjectLead + description + "."
    case ColorScheme(name) => ColorLead + name + ColorTail
    case FurnitureClause(ds) => FurnitureLead + Join(ListSeparator, ds) + "."
    case DecorClause(ds) => DecorLead + Join(ListSeparator, ds) + "."
    case Atmosphere => AtmosphereText
  }

  function RenderAll(ss: seq<Section>): (r: seq<string>)
    ensures |r| == |ss|
    ensures forall i :: 0 <= i < |ss| ==> r[i] == Render(ss[i])
  {
    seq(|ss|, i requires 0 <= i < |ss| => Render(ss[i]))
  }

  /** `items.map(x => x.description)`. */
  function Descriptions(items: seq<Instance>): (r: seq<string>)
    ensures |r| == |items|
    ensures forall i :: 0 <= i < |items| ==> r[i] == items[i].item.description
  {
    seq(|items|, i requires 0 <= i < |items| => items[i].item.description)
  }

  /** The four paragraphs every prompt opens with. */
  function FixedSections(room: Room, color: Color, perspective: Perspective): seq<Section> {
    [Camera(PerspectiveSentence(perspective)), ImageStyle, PrimarySubject(room.description),
     ColorScheme(AsciiLower(color.name))]
  }

  /** A clause that is emitted only when `present` holds. */
  function OptionalClause(present: bool, s: Section): seq<Section> {
    if present then [s] else []
  }

  /** The sections `buildPrompt` emits: four fixed ones, then a furniture clause only for a
      non-empty furniture list, a decor clause only for a non-empty decor list, then the
      closing atmosphere paragraph. */
  function PromptSections(room: Room, color: Color, furniture: seq<Instance>, decor: seq<Instance>,
                          perspective: Perspective): seq<Section>
  {
    FixedSections(room, color, perspective)
    + OptionalClause(|furniture| > 0, FurnitureClause(Descriptions(furniture)))
    + OptionalClause(|decor| > 0, DecorClause(Descriptions(decor)))
    + [Atmosphere]
  }

  /** Where each section of a prompt sits: five or six or seven of them, the fixed four
      first, the furniture clause fifth when there is furniture, the decor clause second to
      last when there is decor, the atmosphere paragraph last. */
  lemma PromptSectionsShape(room: Room, color: Color, furniture: seq<Instance>, decor: seq<Instance>,
                            perspective: Perspective)
    ensures var r := PromptSections(room, color, furniture, decor, perspective);
            && |r| == 5 + (if |furniture| > 0 then 1 else 0) + (if |decor| > 0 then 1 else 0)
            && r[0] == Camera(PerspectiveSentence(perspective))
            && r[1] == ImageStyle
            && r[2] == PrimarySubject(room.description)
            && r[3] == ColorScheme(AsciiLower(color.name))
            && r[|r| - 1] == Atmosphere
            && (|furniture| > 0 ==> r[4] == FurnitureClause(Descriptions(furniture)))
            && (|decor| > 0 ==> r[|r| - 2] == DecorClause(Descriptions(decor)))
  {
  }

  /** The prompt: the sections' texts, one paragraph each, separated by blank lines. */
  function Prompt(room: Room, color: Color, furniture: seq<Instance>, decor: seq<Instance>,
                  perspective: Perspective): string
  {
    Join(ParagraphBreak, RenderAll(PromptSections(room, color, furniture, decor, perspective)))
  }

  /** The furniture clause is emitted exactly when there is furniture, the decor clause
      exactly when there is decor, each independently of the other. */
  lemma OptionalClausesPresentIff(room: Room, color: Color, furniture: seq<Instance>, decor: seq<Instance>,
                                  perspective: Perspective)
    ensures var r := PromptSections(room, color, furniture, decor, perspective);
            && ((exists i :: 0 <= i < |r| && r[i].FurnitureClause?) <==> |furniture| > 0)
            && ((exists i :: 0 <= i < |r| && r[i].DecorClause?) <==> |decor| > 0)
  {
    var r := PromptSections(room, color, furniture, decor, perspective);
    PromptSectionsShape(room, color, furniture, decor, perspective);
    if |furniture| > 0 {
      assert r[4].FurnitureClause?;
    }
    if |decor| > 0 {
      assert r[|r| - 2].DecorClause?;
    }
  }

  /** One `prompt += "\n\n" + ...` step: the prompt gains one more paragraph. */
  lemma AppendParagraph(emitted: seq<Section>, s: Section)
    requires |emitted| > 0
    ensures Join(ParagraphBreak, RenderAll(emitted + [s]))
            == Join(ParagraphBreak, RenderAll(emitted)) + ParagraphBreak + Render(s)
  {
    assert RenderAll(emitted + [s]) == RenderAll(emitted) + [Render(s)];
    JoinSnoc(ParagraphBreak, RenderAll(emitted), Render(s));
  }

  /** An `if (...) prompt += "\n\n" + ...` step: the prompt gains the clause only when present. */
  lemma AppendOptional(emitted: seq<Section>, present: bool, s: Section)
    requires |emitted| > 0
    ensures Join(ParagraphBreak, RenderAll(emitted + OptionalClause(present, s)))
            == if present then Join(ParagraphBreak, RenderAll(emitted)) + ParagraphBreak + Render(s)
               else Join(ParagraphBreak, RenderAll(emitted))
  {
    if present {
      AppendParagraph(emitted, s);
    } else {
      assert emitted + OptionalClause(present, s) == emitted;
    }
  }

  /** The four opening paragraphs, joined. */
  lemma FixedSectionsUnfold(room: Room, color: Color, perspective: Perspective)
    ensures Join(ParagraphBreak, RenderAll(FixedSections(room, color, perspective)))
            == Render(Camera(PerspectiveSentence(perspective)))
               + ParagraphBreak + Render(ImageStyle)
               + ParagraphBreak + Render(PrimarySubject(room.description))
               + ParagraphBreak + Render(ColorScheme(AsciiLower(color.name)))
  {
    var texts := RenderAll(FixedSections(room, color, perspective));
    assert texts == [Render(Camera(PerspectiveSentence(perspective))), Render(ImageStyle),
                     Render(PrimarySubject(room.description)), Render(ColorScheme(AsciiLower(color.name)))];
    JoinFour(ParagraphBreak, texts);
  }

  /** The prompt spelled out the way `buildPrompt` accumulates it: the four fixed
      paragraphs, the furniture clause only for a non-empty furniture list, the decor
      clause only for a non-empty decor list, then the atmosphere paragraph. */
  lemma PromptUnfolds(room: Room, color: Color, furniture: seq<Instance>, decor: seq<Instance>,
                      perspective: Perspective)
    ensures var head := Render(Camera(PerspectiveSentence(perspective)))
                        + ParagraphBreak + Render(ImageStyle)
                        + ParagraphBreak + Render(PrimarySubject(room.description))
                        + ParagraphBreak + Render(ColorScheme(AsciiLower(color.name)));
            var withFurniture := if |furniture| > 0
                                 then head + ParagraphBreak + Render(FurnitureClause(Descriptions(furniture)))
                                 else head;
            var withDecor := if |decor| > 0
                             then withFurniture + ParagraphBreak + Render(DecorClause(Descriptions(decor)))
                             else withFurniture;
            Prompt(room, color, furniture, decor, perspective) == withDecor + ParagraphBreak + Render(Atmosphere)
  {
    var fixed := FixedSections(room, color, perspective);
    FixedSectionsUnfold(room, color, perspective);
    var middle := fixed + OptionalClause(|furniture| > 0, FurnitureClause(Descriptions(furniture)));
    AppendOptional(fixed, |furniture| > 0, FurnitureClause(Descriptions(furniture)));
    var last := middle + OptionalClause(|decor| > 0, DecorClause(Descriptions(decor)));
    AppendOptional(middle, |decor| > 0, DecorClause(Descriptions(decor)));
    AppendParagraph(last, Atmosphere);
  }

  /** `buildPrompt`: starts with the camera instruction and appends each further
      paragraph with `+=`, skipping the furniture and decor clauses for empty lists. */
  method BuildPrompt(room: Room, color: Color, furniture: seq<Instance>, decor: seq<Instance>,
                     perspective: Perspective) returns (prompt: string)
    ensures prompt == Prompt(room, color, furniture, decor, perspective)
  {
    PromptUnfolds(room, color, furniture, decor, perspective);
    prompt := Render(Camera(PerspectiveSentence(perspective)));
    prompt := prompt + ParagraphBreak + Render(ImageStyle);
    prompt := prompt + ParagraphBreak + Render(PrimarySubject(room.description));
    prompt := prompt + ParagraphBreak + Render(ColorScheme(AsciiLower(color.name)));
    if |furniture| > 0 {
      var furnitureDescriptions := Descriptions(furniture);
      prompt := prompt + ParagraphBreak + Render(FurnitureClause(furnitureDescriptions));
    }
    if |decor| > 0 {
      var decorDescriptions := Descriptions(decor);
      prompt := prompt + ParagraphBreak + Render(DecorClause(decorDescriptions));
    }
    prompt := prompt + ParagraphBreak + Render(Atmosphere);
  }

  /** The prompt begins with the camera instruction for the chosen perspective. */
  lemma PromptBeginsWithCamera(room: Room, color: Color, furniture: seq<Instance>, decor: seq<Instance>,
                               perspective: Perspective)
    ensures var lead := CameraLead + PerspectiveSentence(perspective);
            var prompt := Prompt(room, color, furniture, decor, perspective);
            |lead| <= |prompt| && prompt[..|lead|] == lead
  {
    var texts := RenderAll(PromptSections(room, color, furniture, decor, perspective));
    JoinPlacesEach(ParagraphBreak, texts, 0);
  }

  /** Each section's text sits in the prompt at its own offset, the sections follow one
      another in order, and a blank line separates every two consecutive ones. */
  lemma PromptLayout(room: Room, color: Color, furniture: seq<Instance>, decor: seq<Instance>,
                     perspective: Perspective, i: nat)
    requires i < |PromptSections(room, color, furniture, decor, perspective)|
    ensures var sections := PromptSections(room, color, furniture, decor, perspective);
            var texts := RenderAll(sections);
            var prompt := Prompt(room, color, furniture, decor, perspective);
            var at := Offset(ParagraphBreak, texts, i);
            && at + |texts[i]| <= |prompt|
            && prompt[at..at + |texts[i]|] == Render(sections[i])
            && (i + 1 < |sections| ==>
                  Offset(ParagraphBreak, texts, i + 1) == at + |texts[i]| + |ParagraphBreak| &&
                  Offset(ParagraphBreak, texts, i + 1) <= |prompt| &&
                  prompt[at + |texts[i]|..at + |texts[i]| + |ParagraphBreak|] == ParagraphBreak)
  {
    SectionsLayout(PromptSections(room, color, furniture, decor, perspective), i);
  }

  /** The same layout for any list of sections joined as paragraphs. */
  lemma SectionsLayout(sections: seq<Section>, i: nat)
    requires i < |sections|
    ensures var texts := RenderAll(sections);
            var prompt := Join(ParagraphBreak, texts);
            var at := Offset(ParagraphBreak, texts, i);
            && at + |texts[i]| <= |prompt|
            && prompt[at..at + |texts[i]|] == Render(sections[i])
            && (i + 1 < |sections| ==>
                  Offset(ParagraphBreak, texts, i + 1) == at + |texts[i]| + |ParagraphBreak| &&
                  Offset(ParagraphBreak, texts, i + 1) <= |prompt| &&
                  prompt[at + |texts[i]|..at + |texts[i]| + |ParagraphBreak|] == ParagraphBreak)
  {
    JoinPlacesEach(ParagraphBreak, RenderAll(sections), i);
  }

  /** Inside the furniture clause every description appears verbatim after the lead, in
      list order: description `i` is followed by the separator text when another one comes,
      and ends before every later one starts. */
  lemma {:induction false} FurnitureClauseListsInOrder(ds: seq<string>, i: nat)
    requires i < |ds|
    ensures var text := Render(FurnitureClause(ds));
            var at := |FurnitureLead| + Offset(ListSeparator, ds, i);
            && at + |ds[i]| <= |text|
            && text[at..at + |ds[i]|] == ds[i]
            && (i + 1 < |ds| ==>
                  at + |ds[i]| + |ListSeparator| <= |text| &&
                  text[at + |ds[i]|..at + |ds[i]| + |ListSeparator|] == ListSeparator)
            && forall j :: i < j < |ds| ==> at + |ds[i]| + |ListSeparator| <= |FurnitureLead| + Offset(ListSeparator, ds, j)
  {
    ListedInOrder(FurnitureLead, ListSeparator, ds, ".", i);
  }

  /** The same for the decor clause. */
  lemma {:induction false} DecorClauseListsInOrder(ds: seq<string>, i: nat)
    requires i < |ds|
    ensures var text := Render(DecorClause(ds));
            var at := |DecorLead| + Offset(ListSeparator, ds, i);
            && at + |ds[i]| <= |text|
            && text[at..at + |ds[i]|] == ds[i]
            && (i + 1 < |ds| ==>
                  at + |ds[i]| + |ListSeparator| <= |text| &&
                  text[at + |ds[i]|..at + |ds[i]| + |ListSeparator|] == ListSeparator)
            && forall j :: i < j < |ds| ==> at + |ds[i]| + |ListSeparator| <= |DecorLead| + Offset(ListSeparator, ds, j)
  {
    ListedInOrder(DecorLead, ListSeparator, ds, ".", i);
  }

  // ---------------------------------------------------------------- clients

  const ApiKeyMissing := "API_KEY environment variable not set."
  const NoImageData := "No image data returned from API."
  const NoEditedImageData := "No edited image data returned from API."

  const ImageModel := "imagen-4.0-generate-001"
  const EditModel := "gemini-2.5-flash-image"
  const JpegMime := "image/jpeg"

  /** `process.env.API_KEY` is truthy. */
  predicate ApiKeyConfigured(apiKey: Option<string>) {
    Present(apiKey)
  }

  /** What a client hands to the endpoint. */
  datatype Request =
    | GenerateImages(model: string, prompt: string, numberOfImages: int, outputMimeType: string, aspectRatio: string)
    | GenerateContent(model: string, imageData: string, imageMimeType: string, text: string,
                      responseModalities: seq<string>)

  /** The image request for a prompt: one 16:9 JPEG from the image model. */
  function ImageRequest(prompt: string): (r: Request)
    ensures r.GenerateImages? && r.prompt == prompt && r.numberOfImages == 1
  {
    GenerateImages(ImageModel, prompt, 1, JpegMime, "16:9")
  }

  /** The parts of the SDK's responses that the clients read; every `?.` in the source is an Option. */
  datatype GeneratedImage = GeneratedImage(image: Option<Image>)
  datatype Image = Image(imageBytes: Option<string>)
  datatype ImagesResponse = ImagesResponse(generatedImages: seq<GeneratedImage>)

  datatype InlineData = InlineData(data: string, mimeType: string)
  datatype Part = Part(inlineData: Option<InlineData>, text: Option<string>)
  datatype Content = Content(parts: Option<seq<Part>>)
  datatype Candidate = Candidate(content: Option<Content>)
  datatype ContentResponse = ContentResponse(candidates: Option<seq<Candidate>>)

  /** `response.generatedImages[0]?.image?.imageBytes`, rejected when falsy. */
  function FirstImageBytes(response: ImagesResponse): (r: Result<string, string>)
    ensures r.Success? <==>
              |response.generatedImages| > 0 && response.generatedImages[0].image.Some? &&
              Present(response.generatedImages[0].image.value.imageBytes)
    ensures r.Success? ==> r.value == response.generatedImages[0].image.value.imageBytes.value && r.value != ""
    ensures r.Failure? ==> r.error == NoImageData
  {
    if |response.generatedImages| == 0 then Failure(NoImageData)
    else match response.generatedImages[0].image
      case None => Failure(NoImageData)
      case Some(image) => if Present(image.imageBytes) then Success(image.imageBytes.value) else Failure(NoImageData)
  }

  /** What `generateRoomImage` resolves to or throws, given the endpoint's answer. */
  function GenerateOutcome(apiKey: Option<string>, response: Result<ImagesResponse, string>): (r: Result<string, string>)
    ensures !ApiKeyConfigured(apiKey) ==> r == Failure(ApiKeyMissing)
    ensures ApiKeyConfigured(apiKey) && response.Failure? ==> r == Failure(response.error)
    ensures ApiKeyConfigured(apiKey) && response.Success? ==> r == FirstImageBytes(response.value)
  {
    if !ApiKeyConfigured(apiKey) then Failure(ApiKeyMissing)
    else match response
      case Failure(e) => Failure(e)
      case Success(resp) => FirstImageBytes(resp)
  }

  /** `generateRoomImage`: fails before any request without an API key; otherwise sends the
      compiled prompt for one 16:9 JPEG and returns the first image's bytes. */
  method GenerateRoomImage(apiKey: Option<string>, room: Room, color: Color, furniture: seq<Instance>,
                           decor: seq<Instance>, perspective: Perspective,
                           response: Result<ImagesResponse, string>)
    returns (sent: Option<Request>, result: Result<string, string>)
    ensures !ApiKeyConfigured(apiKey) <==> sent == None
    ensures sent.Some? ==> sent.value == ImageRequest(Prompt(room, color, furniture, decor, perspective))
    ensures result == GenerateOutcome(apiKey, response)
  {
    if !ApiKeyConfigured(apiKey) {
      return None, Failure(ApiKeyMissing);
    }
    var prompt := BuildPrompt(room, color, furniture, decor, perspective);
    sent := Some(ImageRequest(prompt));
    match response
    case Failure(e) =>
      result := Failure(e);
    case Success(resp) =>
      result := FirstImageBytes(resp);
  }

  /** `response.candidates?.[0]?.content?.parts ?? []`. */
  function ResponseParts(response: ContentResponse): seq<Part> {
    match response.candidates
    case None => []
    case Some(cs) =>
      if |cs| == 0 then []
      else match cs[0].content
        case None => []
        case Some(content) => match content.parts
          case None => []
          case Some(parts) => parts
  }

  /** The index of the first part at or after `k` that carries inline data. */
  function FirstImagePartFrom(parts: seq<Part>, k: nat): (r: Option<nat>)
    requires k <= |parts|
    ensures r.Some? ==> k <= r.value < |parts| && parts[r.value].inlineData.Some?
    ensures r.Some? ==> forall j :: k <= j < r.value ==> parts[j].inlineData.None?
    ensures r.None? ==> forall j :: k <= j < |parts| ==> parts[j].inlineData.None?
    decreases |parts| - k
  {
    if k == |parts| then None
    else if parts[k].inlineData.Some? then Some(k)
    else FirstImagePartFrom(parts, k + 1)
  }

  /** The data of the first part with inline data, or the "no edited image" failure. */
  function ImageFromParts(parts: seq<Part>): (r: Result<string, string>)
    ensures r.Failure? <==> forall j :: 0 <= j < |parts| ==> parts[j].inlineData.None?
    ensures r.Failure? ==> r.error == NoEditedImageData
    ensures r.Success? ==>
              exists i :: 0 <= i < |parts| && parts[i].inlineData.Some? && r.value == parts[i].inlineData.value.data &&
                          forall j :: 0 <= j < i ==> parts[j].inlineData.None?
  {
    match FirstImagePartFrom(parts, 0)
    case None => Failure(NoEditedImageData)
    case Some(i) => Success(parts[i].inlineData.value.data)
  }

  /** The `for ... of` scan in `refineRoomImage`: returns at the first part carrying inline data. */
  method ScanForImage(parts: seq<Part>) returns (result: Result<string, string>)
    ensures result == ImageFromParts(parts)
  {
    var k := 0;
    while k < |parts|
      invariant 0 <= k <= |parts|
      invariant FirstImagePartFrom(parts, k) == FirstImagePartFrom(parts, 0)
    {
      if parts[k].inlineData.Some? {
        return Success(parts[k].inlineData.value.data);
      }
      k := k + 1;
    }
    result := Failure(NoEditedImageData);
  }

  /** The edit instruction sent alongside the image, naming the user's language. */
  const RefineLead := "Based on the user's instruction in "
  const RefineMiddle := ", edit the provided image. The instruction is: \""

  function RefineInstruction(language: string, instruction: string): string {
    RefineLead + language + RefineMiddle + instruction + "\""
  }

  /** What `refineRoomImage` resolves to or throws, given the endpoint's answer. */
  function RefineOutcome(apiKey: Option<string>, response: Result<ContentResponse, string>): (r: Result<string, string>)
    ensures !ApiKeyConfigured(apiKey) ==> r == Failure(ApiKeyMissing)
    ensures ApiKeyConfigured(apiKey) && response.Failure? ==> r == Failure(response.error)
    ensures ApiKeyConfigured(apiKey) && response.Success? ==> r == ImageFromParts(ResponseParts(response.value))
  {
    if !ApiKeyConfigured(apiKey) then Failure(ApiKeyMissing)
    else match response
      case Failure(e) => Failure(e)
      case Success(resp) => ImageFromParts(ResponseParts(resp))
  }

  /** `refineRoomImage`: fails before any request without an API key; otherwise sends the
      image with the edit instruction and returns the first inline image of the answer. */
  method RefineRoomImage(apiKey: Option<string>, base64Image: string, instruction: string, language: string,
                         response: Result<ContentResponse, string>)
    returns (sent: Option<Request>, result: Result<string, string>)
    ensures !ApiKeyConfigured(apiKey) <==> sent == None
    ensures sent.Some? ==>
              sent.value == GenerateContent(EditModel, base64Image, JpegMime, RefineInstruction(language, instruction), ["IMAGE"])
    ensures result == RefineOutcome(apiKey, response)
  {
    if !ApiKeyConfigured(apiKey) {
      return None, Failure(ApiKeyMissing);
    }
    sent := Some(GenerateContent(EditModel, base64Image, JpegMime, RefineInstruction(language, instruction), ["IMAGE"]));
    match response
    case Failure(e) =>
      result := Failure(e);
    case Success(resp) =>
      result := ScanForImage(ResponseParts(resp));
  }
}
