# Room designer — a Dafny model of its core

The application lets a user pick a room, a wall colour, furniture and decor pieces and a
camera perspective. It compiles that selection into a text prompt for an image model, shows
the generated picture, lets the user refine it with a free-text instruction, and exports the
selection as a small saved-design record. This project models that core and proves properties
of it:

- `gemini_service.dfy` (module `GeminiService`) holds the prompt compiler.
  - `PERSPECTIVE_MAP` and `buildPrompt` are modelled; `buildPrompt` is a method that appends
    paragraph by paragraph, proved equal to the specification function `Prompt`.
  - It also holds the guard and result-extraction logic of the two image clients: the API-key
    check, the "first generated image has bytes" check, and the `for … of` scan for the first
    response part with inline data.
- `app.dfy` (module `App`) holds the design session, the `AppContent` component.
  - It is a class `DesignSession` whose fields are the nine state cells.
  - Each handler is a method that states the whole new state, the id counter included.
  - Two auxiliary fields: a counter for fresh instance ids, and a ghost log of image-service
    calls.
  - It also holds the `data:image/jpeg;base64,` wrapping and its split-at-comma round trip, and
    the saved design with its file name.
- `sidebar.dfy` (module `Sidebar`) holds the colour tab: the recommended/other partition.
- `summary.dfy` (module `Summary`) holds the button rules, the perspective options and the
  removal actions.
- `canvas.dfy` (module `Canvas`) holds:
  - the view priority of `renderContent`;
  - the refine-form guard;
  - the image-download guard.
- `text.dfy` (module `Text`) holds the JavaScript string operations the code relies on:
  - `\s` and `trim()`;
  - `toLowerCase()` on ASCII;
  - `join`, `split(',')`, and `replace(/\s+/g, '-')`.
- `types.dfy` holds the records of `types.ts`; `wrappers.dfy` holds `Option` and `Result`.

JavaScript truthiness is modelled where the code relies on it. `Present(s)` means "not null and
not the empty string": an empty API key, an empty error message and an empty image all count as
absent, exactly as `if (!x)` treats them.

The two network calls are not modelled. Each client method receives, as a parameter, the
endpoint's answer or the message the SDK throws. It returns the request it would have sent:
`None` when it fails before sending. The session's handlers likewise receive what the client
resolves to or throws as a `Result<string, string>` parameter. They append the call they make
to the ghost log `calls`, so "no call is made" can be stated.

An `async` handler is modelled as two methods and their composition:

- the part up to the `await`, which records the call in the log (`BeginGenerate`, `BeginRefine`);
- the part after it (`EndGenerate`, `EndRefine`);
- the whole handler as one step (`GenerateDesign`, `RefineDesign`).

Between the two halves, the flags computed in `Summary` and `Canvas` are what keep a second
request from starting. The generate handler itself has no re-entrancy check.

At these points the code behaves differently from what its UI suggests; the model follows the
code:

- Selecting a room keeps the selected colour.
- Changing the perspective keeps a generated image on screen.
- A failed refinement keeps the old image, which is then hidden behind the error.
- A room name made only of whitespace yields the file name `--design.json`, not
  `room-design.json`. The result of `replace` is `"-"`, which is truthy, so only the empty name
  falls back to `room`.

## Model

| member | source | states |
|---|---|---|
| GeminiService.PerspectiveSentence | services/geminiService.ts:4-9 | `PERSPECTIVE_MAP`: the camera sentence of each of the four perspectives, word for word; that the lookup is total and injective is stated by `PerspectiveSentencesDistinct` |
| GeminiService.PerspectiveSentencesDistinct | services/geminiService.ts:4-9 | the perspective lookup gives every perspective a non-empty sentence, and no two perspectives share one |
| GeminiService.Descriptions | services/geminiService.ts:22 | the description list has one entry per placed item, the item's description, in list order |
| GeminiService.PromptSectionsShape | services/geminiService.ts:14-31 | the prompt has 5 to 7 sections: camera with the chosen perspective's sentence, style, primary subject with the room description, colour scheme with the lower-cased colour name, then the furniture clause fifth when there is furniture, the decor clause second to last when there is decor, atmosphere last |
| GeminiService.Prompt | services/geminiService.ts:12-34 | the prompt `buildPrompt` returns: the rendered sections joined by a blank line; its shape is stated by `PromptSectionsShape`, `OptionalClausesPresentIff`, `PromptLayout` and the clause lemmas, and `BuildPrompt` is proved to return it |
| GeminiService.OptionalClausesPresentIff | services/geminiService.ts:21-29 | a furniture clause is present if and only if the furniture list is non-empty; a decor clause is present if and only if the decor list is non-empty, independently of each other |
| GeminiService.AppendParagraph | services/geminiService.ts:17-31 | one more `+= "\n\n" + …` step adds exactly one paragraph to the joined prompt |
| GeminiService.AppendOptional | services/geminiService.ts:21-29 | a guarded append adds the clause's paragraph when its guard holds and leaves the prompt unchanged otherwise |
| GeminiService.FixedSectionsUnfold | services/geminiService.ts:14-19 | the four fixed opening paragraphs, joined, are the four texts separated by blank lines |
| GeminiService.PromptUnfolds | services/geminiService.ts:14-31 | the prompt is the camera, style, subject and colour paragraphs, then the furniture paragraph only for a non-empty list, the decor paragraph only for a non-empty list, then the atmosphere paragraph, each preceded by `\n\n` |
| GeminiService.BuildPrompt | services/geminiService.ts:12-34 | the prompt accumulated by successive `+=` steps equals the prompt specification `Prompt` |
| GeminiService.PromptBeginsWithCamera | services/geminiService.ts:14 | every prompt starts with the critical-camera-instruction lead followed by the chosen perspective's sentence |
| GeminiService.PromptLayout | services/geminiService.ts:14-31 | each section's text occurs in the prompt at its offset, sections follow each other in order, and exactly `\n\n` separates consecutive sections |
| GeminiService.SectionsLayout | services/geminiService.ts:14-31 | the same layout for any section list joined with blank lines |
| GeminiService.FurnitureClauseListsInOrder | services/geminiService.ts:21-24 | in the furniture clause every description, the last and an only one included, occurs verbatim right after the lead at its offset in the joined list, and it ends, followed by `, `, before every later description starts |
| GeminiService.DecorClauseListsInOrder | services/geminiService.ts:26-29 | the same for the decor clause: every description, the last and an only one included, occurs verbatim at its offset after the lead and ends, followed by `, `, before every later one |
| GeminiService.ImageRequest | services/geminiService.ts:54-62 | the image request carries exactly the prompt and asks for one image |
| GeminiService.FirstImageBytes | services/geminiService.ts:64-70 | succeeds if and only if the first generated image exists and has non-empty bytes, and then returns them; otherwise fails with "No image data returned from API." |
| GeminiService.GenerateOutcome | services/geminiService.ts:44-46 | without a (truthy) API key the result is the missing-key failure; otherwise a thrown call error is passed on, and a response is decided by the first image's bytes |
| GeminiService.GenerateRoomImage | services/geminiService.ts:37-71 | no request is sent if and only if the API key is absent; a sent request is the image request for `Prompt` of the selection; the result is `GenerateOutcome` |
| GeminiService.FirstImagePartFrom | services/geminiService.ts:104-109 | finds the first part at or after k with inline data; `None` means no later part has any |
| GeminiService.ImageFromParts | services/geminiService.ts:104-111 | fails with "No edited image data returned from API." if and only if no part has inline data; otherwise returns the data of the first part that has it |
| GeminiService.ResponseParts | services/geminiService.ts:104 | `response.candidates?.[0]?.content?.parts ?? []`: the parts of the first candidate, or none when any link of the chain is missing or there is no candidate; `ScanForImage` and `RefineOutcome` are stated in terms of it |
| GeminiService.ScanForImage | services/geminiService.ts:104-111 | the loop with early return yields `ImageFromParts` of the parts |
| GeminiService.RefineOutcome | services/geminiService.ts:78-80 | without a (truthy) API key the result is the missing-key failure; otherwise a thrown error is passed on, and a response is decided by its first inline-data part, missing candidates, content or parts counting as no parts |
| GeminiService.RefineInstruction | services/geminiService.ts:95 | the instruction text of the edit request: the lead, the language name, the middle text and the user's instruction between double quotes; `RefineRoomImage` states that the sent request carries it |
| GeminiService.RefineRoomImage | services/geminiService.ts:73-112 | no request is sent if and only if the API key is absent; a sent request is the edit model with the image as JPEG inline data, the instruction text naming the language and quoting the prompt, and image output; the result is `RefineOutcome` |
| Text.LowerChar | services/geminiService.ts:19 | lower-cases an ASCII capital by adding 32 and keeps every other character |
| Text.AsciiLower | services/geminiService.ts:19 | the lower-cased name has the input's length and maps each character through `LowerChar` |
| Text.AsciiLowerSpec | services/geminiService.ts:19 | no capital remains, characters that are not ASCII capitals are kept, and lower-casing twice is lower-casing once |
| Text.JoinSnoc | services/geminiService.ts:17-31 | joining one more paragraph appends the separator and that paragraph |
| Text.OffsetStep | services/geminiService.ts:22 | the next element's offset is this element's offset plus its length plus the separator |
| Text.Join | services/geminiService.ts:22 | `Array.prototype.join`: the elements with the separator between neighbours, empty for no elements; `JoinSnoc` and `JoinPlacesEach` state its layout |
| Text.JoinPlacesEach | services/geminiService.ts:22 | in `join`, every element occurs at its offset and exactly the separator sits between consecutive elements |
| Text.SeparatorAfter | services/geminiService.ts:22 | in `join`, the separator text follows every element but the last |
| Text.JoinFour | services/geminiService.ts:14-19 | four elements joined are the four separated by the separator |
| Text.ListedInOrder | services/geminiService.ts:22-23 | a joined list between a lead and a tail holds every element, the last included, verbatim at its offset after the lead, and each element ends, followed by the separator, before every later element starts |
| Text.OffsetsInOrder | services/geminiService.ts:22 | offsets grow with the index by at least the element and the separator |
| Text.Split | App.tsx:82 | `split(',')` never yields an empty array |
| Text.Field | App.tsx:82 | indexing an array yields a value exactly for an index inside it, and then that element; past the end it is `undefined` |
| Text.SplitWithoutSeparator | App.tsx:82 | a text without a comma splits into itself alone |
| Text.SplitAtFirst | App.tsx:82 | splitting at a first comma yields the text before it, then the split of the rest |
| Text.SplitFirstShorter | App.tsx:82 | when a comma occurs, the first field is shorter than the text |
| Text.LeadingWhitespace | components/Canvas.tsx:94 | counts the leading `\s` characters: all of them are whitespace and the next one is not |
| Text.TrailingWhitespace | components/Canvas.tsx:94 | counts the trailing `\s` characters: all of them are whitespace and the one before them is not |
| Text.Trim | components/Canvas.tsx:94 | a non-empty trimmed text neither begins nor ends with whitespace and is no longer than the input |
| Text.TrimIsSlice | components/Canvas.tsx:94-95 | the trimmed text is the contiguous slice of the input after its leading whitespace, with only whitespace before and after it |
| Text.TrimEmptyIff | components/Canvas.tsx:94 | trimming yields the empty text if and only if the input is all whitespace |
| Text.TrimIdempotent | components/Canvas.tsx:95 | trimming the trimmed text changes nothing |
| Text.IsWhitespace | App.tsx:116 | the characters matched by `\s` (and stripped by `trim()`): space, tab to carriage return, no-break space, ogham space mark, the en quad to hair space range, line and paragraph separators, narrow no-break space, medium mathematical space, ideographic space and the byte-order mark |
| Text.ReplaceWhitespaceRuns | App.tsx:116 | `replace(/\s+/g, '-')`: every maximal run of whitespace becomes one hyphen and other characters stay; stated by `ReplacedHasNoWhitespace`, `ReplaceWithoutWhitespace`, `ReplaceRunBeforeWord` and `ReplaceAfterPlainText` |
| Text.ReplacedHasNoWhitespace | App.tsx:116 | after replacing whitespace runs no whitespace is left, the text is no longer, and it is empty only for the empty input |
| Text.ReplaceWithoutWhitespace | App.tsx:116 | a text without whitespace is left as it is |
| Text.TrimStartAfterRun | App.tsx:116 | the whitespace run at the front ends where the run ends |
| Text.ReplaceRunBeforeWord | App.tsx:116 | a whitespace run followed by a non-whitespace character or the end becomes exactly one hyphen |
| Text.ReplaceAfterPlainText | App.tsx:116 | text without whitespace in front of the rest is kept as it is |
| Sidebar.FindRoom | components/Sidebar.tsx:41 | `find` yields a room if and only if some room has the id, and then it is the first such room |
| Sidebar.KeepColors | components/Sidebar.tsx:45-46 | the filtered list holds exactly the catalogue colours whose id is (or is not) in the room's id list |
| Sidebar.ColorPanelFor | components/Sidebar.tsx:41-46 | the colour tab: the split view for a selected room that has a map entry, the plain list otherwise; stated by `ColorPanelCases`, `PartitionMembership` and `PanelPartitionsCatalogue` |
| Sidebar.ColorPanelCases | components/Sidebar.tsx:41-79 | the split view appears if and only if the selected id is non-empty, names some catalogue room, and that room has a map entry (even an empty one); the single list is the whole catalogue; the split view's room is the catalogue room with that id |
| Sidebar.PartitionMembership | components/Sidebar.tsx:42-46 | in the split view a colour is recommended exactly when it is in the catalogue and listed for the room, other exactly when it is in the catalogue and not listed, never both |
| Sidebar.AllColorsSectionShown | components/Sidebar.tsx:56 | the all-colours section is shown if and only if the view is the single list or some catalogue colour is not recommended for the room |
| Sidebar.KeepColorsInCatalogueOrder | components/Sidebar.tsx:45-46 | each filtered list is a subsequence of the catalogue, in catalogue order |
| Sidebar.KeepRestIsSubsequence | components/Sidebar.tsx:45-46 | a subsequence of the catalogue's tail is a subsequence of the catalogue |
| Sidebar.KeepColorsPartition | components/Sidebar.tsx:45-46 | the two lists together hold each catalogue colour exactly as often as the catalogue does |
| Sidebar.KeepColorsIgnoresIdOrder | components/Sidebar.tsx:45 | the lists depend only on which ids the map entry holds, not on their order there |
| Sidebar.PanelPartitionsCatalogue | components/Sidebar.tsx:44-46 | in the split view both lists keep catalogue order and together form the catalogue as a multiset |
| Summary.CanGenerate | components/Summary.tsx:39 | `canGenerate`: a colour is selected; used by both buttons and stated by `ButtonRules` |
| Summary.GenerateDisabled | components/Summary.tsx:102 | `disabled` of the generate button: no colour, or loading, or refining; stated by `ButtonRules` |
| Summary.DownloadDisabled | components/Summary.tsx:117 | `disabled` of the download button: no colour; stated by `ButtonRules` |
| Summary.ButtonRules | components/Summary.tsx:39-117 | generate is enabled if and only if a colour is selected and neither loading nor refining is in progress; download is enabled if and only if a colour is selected; an enabled generate button implies an enabled download button |
| Summary.OptionIndex | components/Summary.tsx:29-34 | every perspective has exactly one button, at the returned position |
| Summary.PerspectiveOptionsInOrder | components/Summary.tsx:29-34 | the options are front, corner, window and close-up in that order, with no perspective twice |
| Summary.RemoveActions | components/Summary.tsx:60-74 | one removal action per listed entry, in list order, carrying that entry's instance id and the list's category |
| Canvas.ViewFor | components/Canvas.tsx:99-157 | `renderContent`: loading first, then a non-empty error, then a non-empty image with the refining overlay, then the room preview, then the initial view; stated by `ViewPriority` and `ErrorHidesImage` |
| Canvas.ViewPriority | components/Canvas.tsx:99-157 | loading is shown if and only if loading is in progress; an error if and only if not loading and a non-empty error is set; the image if and only if neither of those holds and an image is present, with the refining overlay exactly while refining; otherwise the room preview if and only if a room is selected, else the initial view |
| Canvas.ErrorHidesImage | components/Canvas.tsx:101 | when not loading, a non-empty error is shown even though an image is held |
| Canvas.RefineSubmit | components/Canvas.tsx:92-97 | `onRefine` is called if and only if the text is not all whitespace and no refinement is in flight, and it receives the trimmed, non-empty text |
| Canvas.RefineButtonDisabled | components/Canvas.tsx:138 | `disabled` of the refine button: refining, or a typed text that is empty once trimmed; stated against the submit handler by `RefineSubmitMatchesButton` |
| Canvas.RefineSubmitMatchesButton | components/Canvas.tsx:92-138 | submitting does something exactly when the refine button is enabled, and what it passes is a slice of the typed text with no whitespace at either end |
| Canvas.DownloadImage | components/Canvas.tsx:82-86 | nothing happens without a (truthy) image; otherwise the link points at the image under the name room-design.jpeg |
| App.DataUrlShape | App.tsx:64 | the stored image is the scheme, one comma and the bytes, and the scheme holds no comma |
| App.SecondFieldAfterScheme | App.tsx:82 | after a comma-free scheme and its comma, field 1 of the split is the text up to the next comma |
| App.FirstFieldWhole | App.tsx:82 | the first field is the whole text if and only if the text has no comma |
| App.DataUrlIsDataUrl | App.tsx:64 | wrapping bytes always gives a data URL |
| App.DataUrl | App.tsx:64 | the stored image: `data:image/jpeg;base64,` followed by the returned bytes; stated by `DataUrlShape`, `DataUrlIsDataUrl` and `DataUrlRoundTrip` |
| App.StoredBytes | App.tsx:82 | `split(',')[1]`, `None` for `undefined`; stated by `DataUrlRoundTrip` and `StoredBytesOfDataUrl` |
| App.DataUrlRoundTrip | App.tsx:64-87 | `split(',')[1]` of a stored image is defined and is the bytes up to their first comma; it recovers exactly the stored bytes if and only if they contain no comma |
| App.StoredBytesOfDataUrl | App.tsx:82 | every data URL the session holds has a field 1 and is the wrapping of what follows the prefix |
| App.RemoveById | App.tsx:46 | the filter never yields a longer list |
| App.RemoveByIdMembers | App.tsx:44-51 | an entry survives the filter if and only if it was in the list and its instance id differs |
| App.RemoveByIdAppend | App.tsx:46 | filtering a concatenation filters each part |
| App.RemoveUnknownId | App.tsx:44-51 | an id no entry has leaves the list unchanged |
| App.RemoveSurrounded | App.tsx:46 | removing the only entry with an id leaves the entries before and after it, in order |
| App.RemoveUniqueEntry | App.tsx:46 | with distinct ids, removing entry i's id leaves the list without exactly entry i |
| App.AddThenRemove | App.tsx:34-51 | removing an added entry under its new id restores the previous list |
| App.RemoveActionRemovesItsEntry | App.tsx:44-51 | the removal action the summary binds to entry i removes exactly entry i from its list |
| App.RemoveKeepsIds | App.tsx:46 | filtering keeps ids distinct and below the next id |
| App.RemoveKeepsUnique | App.tsx:46 | filtering a list with distinct ids leaves distinct ids |
| App.ItemRefs | App.tsx:106-107 | one catalogue-id reference per entry, in list order |
| App.ExportDesign | App.tsx:102-109 | the saved-design record: version 1, room id, colour id, furniture and decor as catalogue ids, perspective; stated by `ExportIgnoresInstanceIds` |
| App.ExportIgnoresInstanceIds | App.tsx:102-109 | the saved design is version 1 with the room id, colour id, ids of furniture and decor in list order and the perspective; selections that differ only in instance ids export alike |
| App.DesignFileName | App.tsx:116-117 | the file name ends in -design.json, its stem holds no whitespace, and an empty room name gives room-design.json |
| App.PlainNameKept | App.tsx:116 | a non-empty name without whitespace is used as it is |
| App.WhitespaceNameBecomesHyphen | App.tsx:116 | a non-empty name made only of whitespace gives --design.json, not room-design.json |
| App.WhitespaceRunBecomesHyphen | App.tsx:116 | two words separated by any whitespace run are joined by one hyphen |
| App.GenerateFailedMessage | App.tsx:67 | the generate failure message starts with the translated prefix, then one space, the thrown message verbatim and `". "`, and ends with the translated suffix, and is exactly three characters (the space, the full stop and the space after it) longer than the three parts |
| App.RefineFailedMessage | App.tsx:90 | the refine failure message starts with the translated lead, then one space and the thrown message verbatim, and ends with a full stop, and is exactly two characters longer than lead and message |
| App.DesignSession.constructor | App.tsx:11-19 | nothing selected, no image, no flags, no error, perspective front, no calls |
| App.DesignSession.SelectRoom | App.tsx:22-26 | sets the room and clears image and error; colour, lists, perspective, flags and call log unchanged |
| App.DesignSession.SelectColor | App.tsx:28-32 | sets the colour and clears image and error; nothing else changes |
| App.DesignSession.SetPerspective | App.tsx:154 | only the perspective changes; the image stays |
| App.DesignSession.AddItem | App.tsx:34-42 | appends one entry with an id no entry of either list has, to the chosen list only; advances the id counter by one; clears the image; the error is kept |
| App.DesignSession.RemoveItem | App.tsx:44-51 | the chosen list becomes its filter by instance id, the other list is untouched, the image is cleared |
| App.DesignSession.BeginGenerate | App.tsx:53-63 | starts if and only if room and colour are selected; otherwise only the error is set; once started, loading is set, error and image are cleared, the generate button is disabled, and exactly one call with the current selection is logged; no call otherwise |
| App.DesignSession.EndGenerate | App.tsx:62-70 | success stores the bytes as a data URL, failure sets the formatted error; loading is false afterwards; the call log is unchanged |
| App.DesignSession.GenerateDesign | App.tsx:53-71 | without room or colour: error set, image and loading unchanged, no call; otherwise exactly one call with the current selection, loading false afterwards, the data URL and no error on success, no image and the formatted error on failure |
| App.DesignSession.BeginRefine | App.tsx:73-86 | without a (truthy) image: "No image to refine." and nothing else; otherwise refining is set, the error is cleared, the comma-split bytes are defined, the refine form cannot submit, and exactly one call with those bytes, the instruction and the language name is logged |
| App.DesignSession.EndRefine | App.tsx:84-93 | success replaces the image; failure keeps the image, sets the error and, when not loading, the canvas shows that error; refining is false afterwards; the call log is unchanged |
| App.DesignSession.RefineDesign | App.tsx:73-94 | without an image: error set, no call; otherwise exactly one call with split(',')[1] of the image, the instruction and the language name; refining false afterwards; the new image and no error on success, the old image and the formatted error on failure |
| App.DesignSession.DownloadDesign | App.tsx:96-117 | without room or colour, only the error is set and nothing is offered; otherwise the exported design and its file name are offered and no state changes |

## Left out

- The SDK calls `generateImages` and `generateContent` are outside this model, as are the request transport. The clients take the endpoint's answer as a parameter; the handlers take the client's outcome as a parameter and record the call in a ghost log.
- `process.env.API_KEY` is a parameter `apiKey: Option<string>`.
- `console.log` and `console.error` are output only and are left out.
- The download plumbing is left out: the DOM link, `Blob`, object URLs, `click()`, and the `JSON.stringify` text. The saved design is a datatype value.
- App.DesignSession.AddItem: `Date.now() + Math.random()` is replaced by a counter. The floating-point, clock-based id is modelled only by what the code relies on: a new id, distinct from every id in the lists.
- The `async`/`await` interleaving is left out. Concurrent, overlapping requests are not modelled. Each handler is a pre-await half, a post-await half, and their sequential composition.
- Translations (`t(...)`, `useLanguage`) are opaque strings in a `Messages` record, including the language name sent with a refinement.
- The catalogue data in constants.ts are parameters (the rooms, colours and `ROOM_COLOR_MAP`); constants.ts is not part of this model.
- GeminiService.FirstImageBytes: `response.generatedImages` is assumed to be an array. If it is undefined, the code would throw a `TypeError` with a different message; that case is not modelled.
- Text.AsciiLower: `toLowerCase()` is modelled on the ASCII letters only. Other characters are kept as they are.
- Text.Split: only splitting at a one-character separator is modelled, which is the only case the code uses.
- The room and colour tabs' rendering, the furniture and decor tabs, the language switcher, icons, CSS classes and the preview background toggling are presentation and are left out.
- App.DesignSession.Valid: instance ids are distinct within each list, not across the two lists. The code never compares ids across lists.
