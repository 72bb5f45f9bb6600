/** The design session (App.tsx, `AppContent`): nine state cells and the handlers that
    update them. The two image-service calls are abstracted: a handler receives what the
    call resolves to or throws as a parameter and records the call in a ghost log. */
module App {
  import opened Wrappers
  import opened Types
  import opened Text
  import Summary
  import Canvas

  // ---------------------------------------------------------------- stored images

  /** Every image the session holds is a JPEG data URL made from the base64 bytes. */
  const DataUrlPrefix := "data:image/jpeg;base64,"
  const DataUrlScheme := "data:image/jpeg;base64"

  function DataUrl(bytes: string): string {
    DataUrlPrefix + bytes
  }

  predicate IsDataUrl(url: string) {
    |DataUrlPrefix| <= |url| && url[..|DataUrlPrefix|] == DataUrlPrefix
  }

  /** `generatedImage.split(',')[1]`; `None` stands for `undefined`. */
  function StoredBytes(url: string): Option<string> {
    Field(Split(url, ','), 1)
  }

  /** The prefix is the scheme followed by the only comma of the prefix. */
  lemma DataUrlShape(bytes: string)
    ensures DataUrl(bytes) == DataUrlScheme + [','] + bytes
    ensures ',' !in DataUrlScheme
  {
    assert DataUrlPrefix == DataUrlScheme + [','];
  }

  /** The second comma-separated field after a comma-free scheme and its comma is the
      text up to the next comma. */
  lemma SecondFieldAfterScheme(scheme: string, bytes: string)
    requires ',' !in scheme
    ensures Field(Split(scheme + [','] + bytes, ','), 1) == Some(Split(bytes, ',')[0])
  {
    SplitAtFirst(scheme, ',', bytes);
  }

  /** The text up to the first comma is the whole text exactly when there is no comma. */
  lemma FirstFieldWhole(bytes: string)
    ensures Split(bytes, ',')[0] == bytes <==> ',' !in bytes
  {
    if ',' in bytes {
      SplitFirstShorter(bytes, ',');
    } else {
      SplitWithoutSeparator(bytes, ',');
    }
  }

  /** Wrapping bytes gives a data URL. */
  lemma DataUrlIsDataUrl(bytes: string)
    ensures IsDataUrl(DataUrl(bytes))
  {
    assert (DataUrlPrefix + bytes)[..|DataUrlPrefix|] == DataUrlPrefix;
  }

  /** Splitting a stored data URL at its commas and taking the second field always yields
      something: the bytes up to their first comma. It gives back exactly the bytes that
      were wrapped precisely when those contain no comma (base64 never does). */
  lemma DataUrlRoundTrip(bytes: string)
    ensures IsDataUrl(DataUrl(bytes))
    ensures StoredBytes(DataUrl(bytes)) == Some(Split(bytes, ',')[0])
    ensures StoredBytes(DataUrl(bytes)) == Some(bytes) <==> ',' !in bytes
  {
    DataUrlIsDataUrl(bytes);
    DataUrlShape(bytes);
    SecondFieldAfterScheme(DataUrlScheme, bytes);
    FirstFieldWhole(bytes);
  }

  /** A stored data URL always has a second comma-separated field. */
  lemma StoredBytesOfDataUrl(url: string)
    requires IsDataUrl(url)
    ensures StoredBytes(url).Some?
    ensures url == DataUrl(url[|DataUrlPrefix|..])
  {
    assert url == DataUrlPrefix + url[|DataUrlPrefix|..];
    DataUrlRoundTrip(url[|DataUrlPrefix|..]);
  }

  // ---------------------------------------------------------------- placed items

  /** No two entries of a list share an instance id. */
  predicate UniqueIds(items: seq<Instance>) {
    forall i, j :: 0 <= i < j < |items| ==> items[i].instanceId != items[j].instanceId
  }

  /** Every instance id of the list is below `bound`, the next id to be handed out. */
  predicate IdsBelow(items: seq<Instance>, bound: int) {
    forall i :: 0 <= i < |items| ==> items[i].instanceId < bound
  }

  /** `prev.filter(item => item.instanceId !== instanceId)`. */
  function RemoveById(items: seq<Instance>, instanceId: int): (r: seq<Instance>)
    ensures |r| <= |items|
  {
    if |items| == 0 then []
    else
      var rest := RemoveById(items[1..], instanceId);
      if items[0].instanceId != instanceId then [items[0]] + rest else rest
  }

  /** The entries kept are exactly the entries of the list whose id differs. */
  lemma {:induction false} RemoveByIdMembers(items: seq<Instance>, instanceId: int)
    ensures forall x :: x in RemoveById(items, instanceId) <==> x in items && x.instanceId != instanceId
    decreases |items|
  {
    if |items| > 0 {
      RemoveByIdMembers(items[1..], instanceId);
      assert forall x :: x in items <==> x == items[0] || x in items[1..];
    }
  }

  /** Filtering a concatenation filters each part: the entries kept stay in their order. */
  lemma {:induction false} RemoveByIdAppend(a: seq<Instance>, b: seq<Instance>, instanceId: int)
    ensures RemoveById(a + b, instanceId) == RemoveById(a, instanceId) + RemoveById(b, instanceId)
    decreases |a|
  {
    if |a| > 0 {
      assert (a + b)[0] == a[0];
      assert (a + b)[1..] == a[1..] + b;
      RemoveByIdAppend(a[1..], b, instanceId);
      var rest := RemoveById(a[1..], instanceId);
      assert [a[0]] + (rest + RemoveById(b, instanceId)) == ([a[0]] + rest) + RemoveById(b, instanceId);
    } else {
      assert a + b == b;
    }
  }

  /** An id that no entry carries leaves the list as it is. */
  lemma {:induction false} RemoveUnknownId(items: seq<Instance>, instanceId: int)
    requires forall i :: 0 <= i < |items| ==> items[i].instanceId != instanceId
    ensures RemoveById(items, instanceId) == items
    decreases |items|
  {
    if |items| > 0 {
      RemoveUnknownId(items[1..], instanceId);
      assert items == [items[0]] + items[1..];
    }
  }

  /** An entry whose id no other entry carries is the only one its id removes. */
  lemma RemoveSurrounded(before: seq<Instance>, x: Instance, after: seq<Instance>)
    requires forall k :: 0 <= k < |before| ==> before[k].instanceId != x.instanceId
    requires forall k :: 0 <= k < |after| ==> after[k].instanceId != x.instanceId
    ensures RemoveById(before + [x] + after, x.instanceId) == before + after
  {
    var id := x.instanceId;
    RemoveUnknownId(before, id);
    RemoveUnknownId(after, id);
    assert RemoveById([x], id) == [];
    RemoveByIdAppend(before, [x], id);
    assert RemoveById(before + [x], id) == before + [];
    assert before + [] == before;
    RemoveByIdAppend(before + [x], after, id);
  }

  /** With unique ids, removing an entry's id takes out that entry and nothing else. */
  lemma RemoveUniqueEntry(items: seq<Instance>, i: nat)
    requires UniqueIds(items) && i < |items|
    ensures RemoveById(items, items[i].instanceId) == items[..i] + items[i + 1..]
  {
    var before, after := items[..i], items[i + 1..];
    forall k | 0 <= k < |before| ensures before[k].instanceId != items[i].instanceId {
      assert before[k] == items[k];
    }
    forall k | 0 <= k < |after| ensures after[k].instanceId != items[i].instanceId {
      assert after[k] == items[i + 1 + k];
    }
    assert items == before + [items[i]] + after;
    RemoveSurrounded(before, items[i], after);
  }

  /** Removing the entry just added, under its new id, restores the list. */
  lemma AddThenRemove(items: seq<Instance>, item: CatalogItem, newId: int)
    requires IdsBelow(items, newId)
    ensures RemoveById(items + [Instance(item, newId)], newId) == items
  {
    RemoveByIdAppend(items, [Instance(item, newId)], newId);
    RemoveUnknownId(items, newId);
    assert RemoveById([Instance(item, newId)], newId) == [];
  }

  /** The removal action the summary binds to entry `i` removes exactly that entry. */
  lemma RemoveActionRemovesItsEntry(items: seq<Instance>, category: Category, i: nat)
    requires UniqueIds(items) && i < |items|
    ensures var action := Summary.RemoveActions(items, category)[i];
            action.category == category &&
            RemoveById(items, action.instanceId) == items[..i] + items[i + 1..]
  {
    RemoveUniqueEntry(items, i);
  }

  // ---------------------------------------------------------------- export

  /** `items.map(x => ({ id: x.id }))`. */
  function ItemRefs(items: seq<Instance>): (r: seq<ItemRef>)
    ensures |r| == |items|
    ensures forall i :: 0 <= i < |items| ==> r[i].id == items[i].item.id
  {
    seq(|items|, i requires 0 <= i < |items| => ItemRef(items[i].item.id))
  }

  /** The saved design: format version 1, the ids of the selection, the perspective. */
  function ExportDesign(room: Room, color: Color, furniture: seq<Instance>, decor: seq<Instance>,
                        perspective: Perspective): SavedDesign
  {
    SavedDesign(1, room.id, color.id, ItemRefs(furniture), ItemRefs(decor), perspective)
  }

  /** The saved design keeps the catalogue ids in list order and drops the instance ids:
      two selections of the same pieces under other instance ids export alike. */
  lemma ExportIgnoresInstanceIds(room: Room, color: Color, furniture: seq<Instance>, decor: seq<Instance>,
                                 furniture': seq<Instance>, decor': seq<Instance>, perspective: Perspective)
    requires |furniture| == |furniture'| && forall i :: 0 <= i < |furniture| ==> furniture[i].item == furniture'[i].item
    requires |decor| == |decor'| && forall i :: 0 <= i < |decor| ==> decor[i].item == decor'[i].item
    ensures ExportDesign(room, color, furniture, decor, perspective) == ExportDesign(room, color, furniture', decor', perspective)
    ensures var d := ExportDesign(room, color, furniture, decor, perspective);
            d.version == 1 && d.roomId == room.id && d.colorId == color.id && d.perspective == perspective &&
            |d.furniture| == |furniture| && |d.decor| == |decor| &&
            (forall i :: 0 <= i < |furniture| ==> d.furniture[i].id == furniture[i].item.id) &&
            (forall i :: 0 <= i < |decor| ==> d.decor[i].id == decor[i].item.id)
  {
    assert ItemRefs(furniture) == ItemRefs(furniture');
    assert ItemRefs(decor) == ItemRefs(decor');
  }

  const DesignFileSuffix := "-design.json"

  /** `${selectedRoom?.name.replace(/\s+/g, '-') || 'room'}-design.json`. */
  function DesignFileName(roomName: string): (r: string)
    ensures |DesignFileSuffix| < |r| && r[|r| - |DesignFileSuffix|..] == DesignFileSuffix
    ensures NoWhitespace(r[..|r| - |DesignFileSuffix|])
    ensures roomName == "" ==> r == "room" + DesignFileSuffix
  {
    ReplacedHasNoWhitespace(roomName);
    var replaced := ReplaceWhitespaceRuns(roomName);
    var stem := if replaced == "" then "room" else replaced;
    assert (stem + DesignFileSuffix)[..|stem|] == stem;
    stem + DesignFileSuffix
  }

  /** A name without whitespace is used as it is. */
  lemma PlainNameKept(roomName: string)
    requires roomName != "" && NoWhitespace(roomName)
    ensures DesignFileName(roomName) == roomName + DesignFileSuffix
  {
    ReplaceWithoutWhitespace(roomName);
  }

  /** A name made only of whitespace is not replaced by "room": it becomes a single hyphen,
      which is truthy. Only the empty name falls back to "room". */
  lemma WhitespaceNameBecomesHyphen(roomName: string)
    requires roomName != "" && AllWhitespace(roomName)
    ensures DesignFileName(roomName) == "-" + DesignFileSuffix
  {
    assert roomName + [] == roomName;
    ReplaceRunBeforeWord(roomName, []);
  }

  /** Two words separated by any run of whitespace are joined by a single hyphen. */
  lemma WhitespaceRunBecomesHyphen(first: string, gap: string, second: string)
    requires first != "" && NoWhitespace(first)
    requires gap != "" && AllWhitespace(gap)
    requires second != "" && NoWhitespace(second)
    ensures DesignFileName(first + gap + second) == first + "-" + second + DesignFileSuffix
  {
    ReplacedHasNoWhitespace(first + gap + second);
    assert first + gap + second == first + (gap + second);
    ReplaceAfterPlainText(first, gap + second);
    ReplaceRunBeforeWord(gap, second);
    ReplaceWithoutWhitespace(second);
  }

  // ---------------------------------------------------------------- messages

  /** The translated texts the handlers show, as opaque strings for the active language. */
  datatype Messages = Messages(
    selectRoomAndColor: string,    // error_select_room_and_color
    generateFailedPrefix: string,  // error_failed_to_generate_prefix
    generateFailedSuffix: string,  // error_failed_to_generate_suffix
    refineFailed: string,          // error_refine_failed
    saveIncomplete: string,        // error_save_incomplete_design
    languageName: string)          // lang_<language>

  /** Not translated in the source. */
  const NoImageToRefine := "No image to refine."

  /** The translated prefix, a space, the thrown message, ". " and the translated suffix. */
  function GenerateFailedMessage(t: Messages, message: string): (r: string)
    ensures |r| == |t.generateFailedPrefix| + |message| + |t.generateFailedSuffix| + 3
    ensures r[..|t.generateFailedPrefix|] == t.generateFailedPrefix
    ensures r[|t.generateFailedPrefix|] == ' '
    ensures r[|t.generateFailedPrefix| + 1..][..|message|] == message
    ensures r[|t.generateFailedPrefix| + 1 + |message|..|t.generateFailedPrefix| + 3 + |message|] == ". "
    ensures r[|r| - |t.generateFailedSuffix|..] == t.generateFailedSuffix
  {
    t.generateFailedPrefix + " " + message + ". " + t.generateFailedSuffix
  }

  /** The translated lead, a space, the thrown message and a full stop. */
  function RefineFailedMessage(t: Messages, message: string): (r: string)
    ensures |r| == |t.refineFailed| + |message| + 2
    ensures r[..|t.refineFailed|] == t.refineFailed
    ensures r[|t.refineFailed|] == ' '
    ensures r[|t.refineFailed| + 1..][..|message|] == message
    ensures r[|r| - 1] == '.'
  {
    t.refineFailed + " " + message + "."
  }

  /** A call into the image service: `generateRoomImage` with the selection, or
      `refineRoomImage` with the stored bytes, the instruction and the language name. */
  datatype ServiceCall =
    | GenerateCall(room: Room, color: Color, furniture: seq<Instance>, decor: seq<Instance>, perspective: Perspective)
    | RefineCall(base64Image: string, instruction: string, language: string)

  /** What `handleDownloadDesign` hands to the browser: the design and the file name. */
  datatype Export = Export(design: SavedDesign, fileName: string)

  // ---------------------------------------------------------------- the session

  class DesignSession {
    var room: Option<Room>
    var color: Option<Color>
    var furniture: seq<Instance>
    var decor: seq<Instance>
    var image: Option<string>
    var isLoading: bool
    var isRefining: bool
    var error: Option<string>
    var perspective: Perspective
    /** Stands for `Date.now() + Math.random()`: the next instance id, never handed out before. */
    var nextInstanceId: int
    /** The image-service calls made so far, oldest first. */
    ghost var calls: seq<ServiceCall>

    /** The image is always a JPEG data URL, and each list's instance ids are distinct and
        below the next id to be handed out. */
    predicate Valid()
      reads this
    {
      && (image.Some? ==> IsDataUrl(image.value))
      && UniqueIds(furniture) && IdsBelow(furniture, nextInstanceId)
      && UniqueIds(decor) && IdsBelow(decor, nextInstanceId)
    }

    /** What the canvas shows for the current state. */
    function View(): Canvas.View
      reads this
    {
      Canvas.ViewFor(room, color, image, isLoading, isRefining, error)
    }

    /** Whether the summary's generate button is disabled in the current state. */
    predicate GenerateButtonDisabled()
      reads this
    {
      Summary.GenerateDisabled(color, isLoading, isRefining)
    }

    constructor ()
      ensures Valid()
      ensures room == None && color == None && furniture == [] && decor == [] && image == None
      ensures !isLoading && !isRefining && error == None && perspective == Front
      ensures calls == []
    {
      room, color, furniture, decor, image := None, None, [], [], None;
      isLoading, isRefining, error, perspective := false, false, None, Front;
      nextInstanceId := 0;
      calls := [];
    }

    /** `handleSelectRoom`: sets the room and clears image and error; the colour is kept. */
    method SelectRoom(r: Room)
      requires Valid()
      modifies this
      ensures Valid()
      ensures room == Some(r) && image == None && error == None
      ensures color == old(color) && furniture == old(furniture) && decor == old(decor)
      ensures perspective == old(perspective) && isLoading == old(isLoading) && isRefining == old(isRefining)
      ensures nextInstanceId == old(nextInstanceId) && calls == old(calls)
    {
      room := Some(r);
      image := None;
      error := None;
    }

    /** `handleSelectColor`: sets the colour and clears image and error. */
    method SelectColor(c: Color)
      requires Valid()
      modifies this
      ensures Valid()
      ensures color == Some(c) && image == None && error == None
      ensures room == old(room) && furniture == old(furniture) && decor == old(decor)
      ensures perspective == old(perspective) && isLoading == old(isLoading) && isRefining == old(isRefining)
      ensures nextInstanceId == old(nextInstanceId) && calls == old(calls)
    {
      color := Some(c);
      image := None;
      error := None;
    }

    /** `onPerspectiveChange={setPerspective}`: only the perspective changes; a generated
        image stays on screen. */
    method SetPerspective(p: Perspective)
      requires Valid()
      modifies this
      ensures Valid()
      ensures perspective == p
      ensures room == old(room) && color == old(color) && furniture == old(furniture) && decor == old(decor)
      ensures image == old(image) && error == old(error) && isLoading == old(isLoading) && isRefining == old(isRefining)
      ensures nextInstanceId == old(nextInstanceId) && calls == old(calls)
    {
      perspective := p;
    }

    /** `handleAddItem`: appends one entry with a new instance id to the chosen list and
        clears the image; the error is left as it is. */
    method AddItem(item: CatalogItem, category: Category)
      requires Valid()
      modifies this
      ensures Valid()
      ensures var added := Instance(item, old(nextInstanceId));
              && (category == FurnitureList ==> furniture == old(furniture) + [added] && decor == old(decor))
              && (category == DecorList ==> decor == old(decor) + [added] && furniture == old(furniture))
      ensures forall x :: x in old(furniture) + old(decor) ==> x.instanceId != old(nextInstanceId)
      ensures nextInstanceId == old(nextInstanceId) + 1
      ensures image == None
      ensures room == old(room) && color == old(color) && error == old(error) && perspective == old(perspective)
      ensures isLoading == old(isLoading) && isRefining == old(isRefining) && calls == old(calls)
    {
      var added := Instance(item, nextInstanceId);
      if category == FurnitureList {
        furniture := furniture + [added];
      } else {
        decor := decor + [added];
      }
      nextInstanceId := nextInstanceId + 1;
      image := None;
    }

    /** `handleRemoveItem`: keeps the entries of the chosen list whose instance id differs,
        in order, and clears the image even when nothing was removed. */
    method RemoveItem(instanceId: int, category: Category)
      requires Valid()
      modifies this
      ensures Valid()
      ensures category == FurnitureList ==> furniture == RemoveById(old(furniture), instanceId) && decor == old(decor)
      ensures category == DecorList ==> decor == RemoveById(old(decor), instanceId) && furniture == old(furniture)
      ensures image == None
      ensures room == old(room) && color == old(color) && error == old(error) && perspective == old(perspective)
      ensures isLoading == old(isLoading) && isRefining == old(isRefining)
      ensures nextInstanceId == old(nextInstanceId) && calls == old(calls)
    {
      if category == FurnitureList {
        RemoveKeepsIds(furniture, instanceId, nextInstanceId);
        furniture := RemoveById(furniture, instanceId);
      } else {
        RemoveKeepsIds(decor, instanceId, nextInstanceId);
        decor := RemoveById(decor, instanceId);
      }
      image := None;
    }

    /** The part of `handleGenerateDesign` up to the request: without room or colour it only
        sets the error; otherwise it raises the loading flag, clears error and image and
        records the `generateRoomImage` call. It does not look at the flags itself: while it
        runs the generate button is disabled. */
    method BeginGenerate(t: Messages) returns (started: bool)
      requires Valid()
      modifies this
      ensures Valid()
      ensures started <==> old(room).Some? && old(color).Some?
      ensures !started ==> error == Some(t.selectRoomAndColor) && image == old(image) && isLoading == old(isLoading)
      ensures started ==> isLoading && error == None && image == None && GenerateButtonDisabled()
      ensures !started ==> calls == old(calls)
      ensures started ==>
                calls == old(calls) + [GenerateCall(old(room).value, old(color).value, old(furniture), old(decor),
                                                    old(perspective))]
      ensures room == old(room) && color == old(color) && furniture == old(furniture) && decor == old(decor)
      ensures perspective == old(perspective) && isRefining == old(isRefining)
      ensures nextInstanceId == old(nextInstanceId)
    {
      if room.None? || color.None? {
        error := Some(t.selectRoomAndColor);
        return false;
      }
      isLoading := true;
      error := None;
      image := None;
      calls := calls + [GenerateCall(room.value, color.value, furniture, decor, perspective)];
      started := true;
    }

    /** The part of `handleGenerateDesign` after the request: the image on success, the
        failure message otherwise, and the loading flag lowered in both cases. */
    method EndGenerate(t: Messages, outcome: Result<string, string>)
      requires Valid()
      modifies this
      ensures Valid()
      ensures outcome.Success? ==> image == Some(DataUrl(outcome.value)) && error == old(error)
      ensures outcome.Failure? ==> error == Some(GenerateFailedMessage(t, outcome.error)) && image == old(image)
      ensures !isLoading
      ensures room == old(room) && color == old(color) && furniture == old(furniture) && decor == old(decor)
      ensures perspective == old(perspective) && isRefining == old(isRefining)
      ensures nextInstanceId == old(nextInstanceId) && calls == old(calls)
    {
      match outcome {
        case Success(bytes) =>
          DataUrlRoundTrip(bytes);
          image := Some(DataUrl(bytes));
        case Failure(message) =>
          error := Some(GenerateFailedMessage(t, message));
      }
      isLoading := false;
    }

    /** `handleGenerateDesign` as one step, given what `generateRoomImage` resolves to
        (`Success`) or throws (`Failure`). */
    method GenerateDesign(t: Messages, outcome: Result<string, string>)
      requires Valid()
      modifies this
      ensures Valid()
      ensures old(room).None? || old(color).None? ==>
                error == Some(t.selectRoomAndColor) && image == old(image) && isLoading == old(isLoading) &&
                calls == old(calls)
      ensures old(room).Some? && old(color).Some? ==>
                && calls == old(calls) + [GenerateCall(old(room).value, old(color).value, old(furniture), old(decor),
                                                       old(perspective))]
                && !isLoading
                && (outcome.Success? ==> image == Some(DataUrl(outcome.value)) && error == None)
                && (outcome.Failure? ==> image == None && error == Some(GenerateFailedMessage(t, outcome.error)))
      ensures room == old(room) && color == old(color) && furniture == old(furniture) && decor == old(decor)
      ensures perspective == old(perspective) && isRefining == old(isRefining)
      ensures nextInstanceId == old(nextInstanceId)
    {
      var started := BeginGenerate(t);
      if started {
        EndGenerate(t, outcome);
      }
    }

    /** The part of `handleRefineDesign` up to the request: without an image it only sets
        the error; otherwise it raises the refining flag, clears the error, takes the bytes
        out of the stored data URL and records the `refineRoomImage` call. While refining the
        refine form does not submit. */
    method BeginRefine(t: Messages, instruction: string) returns (base64Image: Option<string>)
      requires Valid()
      modifies this
      ensures Valid()
      ensures !Present(old(image)) ==>
                base64Image == None && error == Some(NoImageToRefine) && isRefining == old(isRefining)
      ensures Present(old(image)) ==>
                && base64Image.Some? && base64Image == StoredBytes(old(image).value)
                && isRefining && error == None
                && forall text :: Canvas.RefineSubmit(text, isRefining) == None
      ensures !Present(old(image)) ==> calls == old(calls)
      ensures Present(old(image)) && base64Image.Some? ==>
                calls == old(calls) + [RefineCall(base64Image.value, instruction, t.languageName)]
      ensures room == old(room) && color == old(color) && furniture == old(furniture) && decor == old(decor)
      ensures image == old(image) && perspective == old(perspective) && isLoading == old(isLoading)
      ensures nextInstanceId == old(nextInstanceId)
    {
      if !Present(image) {
        error := Some(NoImageToRefine);
        return None;
      }
      isRefining := true;
      error := None;
      StoredBytesOfDataUrl(image.value);
      base64Image := StoredBytes(image.value);
      calls := calls + [RefineCall(base64Image.value, instruction, t.languageName)];
    }

    /** The part of `handleRefineDesign` after the request: the new image on success; on
        failure the old image is kept, the error is set and hides it; the refining flag is
        lowered in both cases. */
    method EndRefine(t: Messages, outcome: Result<string, string>)
      requires Valid()
      modifies this
      ensures Valid()
      ensures outcome.Success? ==> image == Some(DataUrl(outcome.value)) && error == old(error)
      ensures outcome.Failure? ==> error == Some(RefineFailedMessage(t, outcome.error)) && image == old(image)
      ensures outcome.Failure? && !isLoading ==> View() == Canvas.ErrorView(RefineFailedMessage(t, outcome.error))
      ensures !isRefining
      ensures room == old(room) && color == old(color) && furniture == old(furniture) && decor == old(decor)
      ensures perspective == old(perspective) && isLoading == old(isLoading)
      ensures nextInstanceId == old(nextInstanceId) && calls == old(calls)
    {
      match outcome {
        case Success(bytes) =>
          DataUrlRoundTrip(bytes);
          image := Some(DataUrl(bytes));
        case Failure(message) =>
          error := Some(RefineFailedMessage(t, message));
      }
      isRefining := false;
    }

    /** `handleRefineDesign` as one step, given what `refineRoomImage` resolves to
        (`Success`) or throws (`Failure`). */
    method RefineDesign(t: Messages, instruction: string, outcome: Result<string, string>)
      requires Valid()
      modifies this
      ensures Valid()
      ensures !Present(old(image)) ==>
                error == Some(NoImageToRefine) && image == old(image) && isRefining == old(isRefining) &&
                calls == old(calls)
      ensures Present(old(image)) ==>
                var bytes := StoredBytes(old(image).value);
                && bytes.Some?
                && calls == old(calls) + [RefineCall(bytes.value, instruction, t.languageName)]
                && !isRefining
                && (outcome.Success? ==> image == Some(DataUrl(outcome.value)) && error == None)
                && (outcome.Failure? ==> image == old(image) && error == Some(RefineFailedMessage(t, outcome.error)))
      ensures room == old(room) && color == old(color) && furniture == old(furniture) && decor == old(decor)
      ensures perspective == old(perspective) && isLoading == old(isLoading)
      ensures nextInstanceId == old(nextInstanceId)
    {
      var base64Image := BeginRefine(t, instruction);
      if base64Image.Some? {
        EndRefine(t, outcome);
      }
    }

    /** `handleDownloadDesign` up to the file it offers: without room or colour it only sets
        the error; otherwise it changes nothing and returns the design and the file name. */
    method DownloadDesign(t: Messages) returns (saved: Option<Export>)
      requires Valid()
      modifies this
      ensures Valid()
      ensures old(room).None? || old(color).None? ==> saved == None && error == Some(t.saveIncomplete)
      ensures old(room).Some? && old(color).Some? ==>
                && saved == Some(Export(ExportDesign(old(room).value, old(color).value, old(furniture), old(decor),
                                                     old(perspective)),
                                        DesignFileName(old(room).value.name)))
                && error == old(error)
      ensures room == old(room) && color == old(color) && furniture == old(furniture) && decor == old(decor)
      ensures image == old(image) && perspective == old(perspective)
      ensures isLoading == old(isLoading) && isRefining == old(isRefining)
      ensures nextInstanceId == old(nextInstanceId) && calls == old(calls)
    {
      if room.None? || color.None? {
        error := Some(t.saveIncomplete);
        return None;
      }
      saved := Some(Export(ExportDesign(room.value, color.value, furniture, decor, perspective),
                            DesignFileName(room.value.name)));
    }
  }

  /** Filtering keeps ids distinct and below the bound. */
  lemma RemoveKeepsIds(items: seq<Instance>, instanceId: int, bound: int)
    requires UniqueIds(items) && IdsBelow(items, bound)
    ensures UniqueIds(RemoveById(items, instanceId)) && IdsBelow(RemoveById(items, instanceId), bound)
  {
    RemoveKeepsUnique(items, instanceId);
    var r := RemoveById(items, instanceId);
    RemoveByIdMembers(items, instanceId);
    forall j | 0 <= j < |r| ensures r[j].instanceId < bound {
      assert r[j] in items;
      var k :| 0 <= k < |items| && items[k] == r[j];
    }
  }

  /** Filtering a list with distinct ids leaves a list with distinct ids. */
  lemma {:induction false} RemoveKeepsUnique(items: seq<Instance>, instanceId: int)
    requires UniqueIds(items)
    ensures UniqueIds(RemoveById(items, instanceId))
    decreases |items|
  {
    if |items| > 0 {
      RemoveKeepsUnique(items[1..], instanceId);
      var rest := RemoveById(items[1..], instanceId);
      if items[0].instanceId != instanceId {
        RemoveByIdMembers(items[1..], instanceId);
        forall j | 0 <= j < |rest| ensures items[0].instanceId != rest[j].instanceId {
          assert rest[j] in items[1..];
          var k :| 0 <= k < |items[1..]| && items[1..][k] == rest[j];
          assert items[k + 1] == rest[j];
        }
        var r := [items[0]] + rest;
        assert forall i, j :: 0 < i < j < |r| ==> r[i] == rest[i - 1] && r[j] == rest[j - 1];
      }
    }
  }
}
