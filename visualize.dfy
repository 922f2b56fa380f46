/** The Visualize stage (components/StepVisualize.tsx): the choice of door
    style and image count, the batch of image requests plus one copy request
    joined by `Promise.all`, the copy-only regeneration, the in-place copy
    edits and the confirmation handed to App. The AI service is not part of
    the model: each request it would answer is returned to the caller, and
    its answers come back as `Outcome` parameters. */
module Visualize {
  import opened Common

  const OwnDoor: string := "自家大门"
  const CustomStyle: string := "自定义"
  const DefaultDoorStyles: seq<string> :=
    ["现代小区防盗门", "豪华别墅大门", "农村老式木门", "古色古香大宅门", "商铺玻璃门", "自定义"]
  const MissingCustomStyle: string := "请输入自定义门的样式"

  /** The style list the `[doorImage]` effect installs. */
  function StyleList(door: Option<string>): seq<string>
  {
    if Truthy(door) then [OwnDoor] + DefaultDoorStyles else DefaultDoorStyles
  }

  /** The style the same effect selects. */
  function SelectedStyle(door: Option<string>): string
  {
    if Truthy(door) then OwnDoor else DefaultDoorStyles[0]
  }

  /** With a door image the list is "自家大门" before the six defaults and
      that entry is selected; without one it is the defaults with the first
      selected. Either way the selection is listed, "自定义" is offered and
      "自家大门" is offered only when a door image exists. */
  lemma StyleListShape(door: Option<string>)
    ensures Truthy(door) ==> StyleList(door) == [OwnDoor] + DefaultDoorStyles && SelectedStyle(door) == StyleList(door)[0]
    ensures !Truthy(door) ==> StyleList(door) == DefaultDoorStyles && SelectedStyle(door) == DefaultDoorStyles[0]
    ensures |StyleList(door)| == if Truthy(door) then 7 else 6
    ensures SelectedStyle(door) in StyleList(door) && CustomStyle in StyleList(door)
    ensures OwnDoor in StyleList(door) <==> Truthy(door)
  {
    assert DefaultDoorStyles[5] == CustomStyle;
    if !Truthy(door) {
      forall i | 0 <= i < |DefaultDoorStyles| ensures DefaultDoorStyles[i] != OwnDoor {
        assert DefaultDoorStyles[i][0] != OwnDoor[0] || DefaultDoorStyles[i][1] != OwnDoor[1];
      }
    }
  }

  /** The text sent as the style: the custom text when "自定义" is chosen. */
  function StylePrompt(doorStyle: string, customText: string): string
  {
    if doorStyle == CustomStyle then customText else doorStyle
  }

  /** The fail-fast check: "自定义" chosen with no custom text. */
  predicate MissingStyle(doorStyle: string, customText: string)
  {
    doorStyle == CustomStyle && StylePrompt(doorStyle, customText) == ""
  }

  /** A run is rejected exactly when the custom style is chosen with empty
      text; otherwise the prompt is never empty. */
  lemma MissingStyleExactly(doorStyle: string, customText: string)
    ensures MissingStyle(doorStyle, customText) <==> doorStyle == CustomStyle && customText == ""
    ensures !MissingStyle(doorStyle, customText) && doorStyle != "" ==> StylePrompt(doorStyle, customText) != ""
  {
  }

  /** `generateDoorVisualization(coupletImage, stylePrompt, doorImage)`. */
  datatype ImageRequest = ImageRequest(couplet: string, style: string, door: Option<string>)

  /** What one run issues: N image requests and one copy request. */
  datatype Batch = Batch(images: seq<ImageRequest>, copy: CopyRequest)

  /** `Promise.all` over settled outcomes: all values in issue order when
      every outcome is Ok, otherwise the error of a rejected one (the first
      in issue order). */
  function AllOk<T>(rs: seq<Outcome<T>>): (r: Outcome<seq<T>>)
    ensures r.Ok? <==> forall i :: 0 <= i < |rs| ==> rs[i].Ok?
    ensures r.Ok? ==> |r.value| == |rs| && forall i :: 0 <= i < |rs| ==> r.value[i] == rs[i].value
    ensures r.Err? ==> Err(r.msg) in rs
  {
    if rs == [] then Ok([])
    else
      match rs[0]
      case Err(m) => Err(m)
      case Ok(v) =>
        var rest := AllOk(rs[1..]);
        assert forall i :: 1 <= i < |rs| ==> rs[i] == rs[1..][i - 1];
        match rest
        case Ok(vs) => Ok([v] + vs)
        case Err(m) => Err(m)
  }

  /** `Promise.all([Promise.all(imagePromises), copyPromise])`. */
  function JoinRun(images: seq<Outcome<string>>, copy: Outcome<SocialCopy>): (r: Outcome<(seq<string>, SocialCopy)>)
    ensures r.Ok? <==> (forall i :: 0 <= i < |images| ==> images[i].Ok?) && copy.Ok?
    ensures r.Ok? ==> r.value.1 == copy.value && |r.value.0| == |images|
    ensures r.Ok? ==> forall i :: 0 <= i < |images| ==> r.value.0[i] == images[i].value
    ensures r.Err? ==> Err(r.msg) in images || copy == Err(r.msg)
  {
    match AllOk(images)
    case Err(m) => Err(m)
    case Ok(vs) =>
      match copy
      case Err(m) => Err(m)
      case Ok(c) => Ok((vs, c))
  }

  /** A copy of every state variable of the stage, and of the batch in
      flight, to say what a handler leaves alone. */
  datatype StageView = StageView(
    stylesList: seq<string>, doorStyle: string, customStyle: string, imageCount: nat,
    hasGenerated: bool, generatedImages: seq<string>, selectedIndex: int,
    generatedCopy: Option<SocialCopy>, isGenerating: bool, isGeneratingCopy: bool,
    error: Option<string>, pending: Option<Batch>)

  /** The local state of one mounted StepVisualize; its props are constants. */
  class VisualizeStage {
    const coupletImage: string
    const doorImage: Option<string>
    const originalCopy: SocialCopy

    var stylesList: seq<string>
    var doorStyle: string
    var customStyle: string
    var imageCount: nat
    var hasGenerated: bool
    var generatedImages: seq<string>
    var selectedIndex: int
    var generatedCopy: Option<SocialCopy>
    var isGenerating: bool
    var isGeneratingCopy: bool
    var error: Option<string>
    /** The requests of the run in flight, whose settled answers
        `SettleGenerate` commits: the promises `handleGenerate` awaits. */
    ghost var pending: Option<Batch>

    /** The selection is always one of the listed styles, the count one of
        1..4, the selected image one of the results whenever there are
        results, and at most four results are shown. A run is in flight
        exactly when a batch of one to four image requests is pending, and
        then holds no results and no error. */
    ghost predicate Valid()
      reads this
    {
      && stylesList == StyleList(doorImage)
      && doorStyle in stylesList
      && 1 <= imageCount <= 4
      && (|generatedImages| > 0 ==> 0 <= selectedIndex < |generatedImages|)
      && |generatedImages| <= 4
      && (isGenerating <==> pending.Some?)
      && (pending.Some? ==> 1 <= |pending.value.images| <= 4)
      && (isGenerating ==> generatedImages == [] && generatedCopy == None && error == None)
      && !isGeneratingCopy
    }

    ghost function View(): StageView
      reads this
    {
      StageView(stylesList, doorStyle, customStyle, imageCount, hasGenerated, generatedImages,
                selectedIndex, generatedCopy, isGenerating, isGeneratingCopy, error, pending)
    }

    /** Mounting with the given props, after the style effect has run. */
    constructor (couplet: string, door: Option<string>, original: SocialCopy)
      ensures Valid()
      ensures coupletImage == couplet && doorImage == door && originalCopy == original
      ensures View() == StageView(StyleList(door), SelectedStyle(door), "", 1, false, [], 0, None, false, false, None, None)
    {
      coupletImage, doorImage, originalCopy := couplet, door, original;
      customStyle, imageCount, hasGenerated := "", 1, false;
      generatedImages, selectedIndex, generatedCopy := [], 0, None;
      isGenerating, isGeneratingCopy, error := false, false, None;
      pending := None;
      StyleListShape(door);
      stylesList := StyleList(door);
      doorStyle := SelectedStyle(door);
    }

    /** A style button; only listed styles are rendered. */
    method ChooseStyle(style: string)
      requires Valid() && style in stylesList
      modifies this
      ensures Valid()
      ensures View() == old(View()).(doorStyle := style)
    {
      doorStyle := style;
    }

    /** The custom-style input. */
    method TypeCustomStyle(text: string)
      requires Valid()
      modifies this
      ensures Valid()
      ensures View() == old(View()).(customStyle := text)
    {
      customStyle := text;
    }

    /** A count button; the buttons are 1, 2, 3 and 4. */
    method ChooseCount(n: nat)
      requires Valid() && 1 <= n <= 4
      modifies this
      ensures Valid()
      ensures View() == old(View()).(imageCount := n)
    {
      imageCount := n;
    }

    /** `handleGenerate` up to its `await`: flags are set and the previous
        results cleared first; then a custom style without text stops the
        run with an error, and otherwise `imageCount` identical image
        requests and one copy request for the source copy are issued. */
    method BeginGenerate() returns (batch: Option<Batch>)
      requires Valid() && !isGenerating
      modifies this
      ensures Valid()
      ensures hasGenerated && generatedImages == [] && generatedCopy == None
      ensures batch.None? <==> MissingStyle(old(doorStyle), old(customStyle))
      ensures batch.None? ==> error == Some(MissingCustomStyle) && !isGenerating
      ensures batch.Some? ==> error == None && isGenerating
      ensures batch.Some? ==> |batch.value.images| == imageCount
      ensures batch.Some? ==> forall i :: 0 <= i < |batch.value.images| ==>
                batch.value.images[i] == ImageRequest(coupletImage, StylePrompt(doorStyle, customStyle), doorImage)
      ensures batch.Some? ==> batch.value.copy == CopyRequest(originalCopy.title, originalCopy.content)
      ensures pending == batch
      ensures View().(hasGenerated := false, generatedImages := [], generatedCopy := None,
                      isGenerating := false, error := None, pending := None)
           == old(View()).(hasGenerated := false, generatedImages := [], generatedCopy := None,
                           isGenerating := false, error := None, pending := None)
    {
      isGenerating := true;
      error := None;
      hasGenerated := true;
      generatedImages := [];
      generatedCopy := None;

      var stylePrompt := StylePrompt(doorStyle, customStyle);
      if doorStyle == CustomStyle && stylePrompt == "" {
        error := Some(MissingCustomStyle);
        isGenerating := false;
        return None;
      }

      var request := ImageRequest(coupletImage, stylePrompt, doorImage);
      var images := seq(imageCount, _ => request);
      batch := Some(Batch(images, CopyRequest(originalCopy.title, originalCopy.content)));
      pending := batch;
    }

    /** `handleGenerate` after `Promise.all` has settled over the batch the
        run issued, one outcome per image request: the results are
        committed, with the first image selected, only when every image and
        the copy succeeded; otherwise the cleared results stay cleared and
        the error is shown. The run is over either way. */
    method SettleGenerate(batch: Batch, images: seq<Outcome<string>>, copy: Outcome<SocialCopy>)
      requires Valid() && pending == Some(batch)
      requires |images| == |batch.images|
      modifies this
      ensures Valid() && !isGenerating && pending == None
      ensures JoinRun(images, copy).Ok? ==>
                && |generatedImages| == |batch.images| && 1 <= |generatedImages| <= 4
                && (forall i :: 0 <= i < |images| ==> generatedImages[i] == images[i].value)
                && generatedCopy == Some(copy.value) && selectedIndex == 0 && error == None
      ensures JoinRun(images, copy).Err? ==>
                && generatedImages == [] && generatedCopy == None
                && error == Some(JoinRun(images, copy).msg) && selectedIndex == old(selectedIndex)
      ensures View().(generatedImages := [], selectedIndex := 0, generatedCopy := None, isGenerating := false, error := None, pending := None)
           == old(View()).(generatedImages := [], selectedIndex := 0, generatedCopy := None, isGenerating := false, error := None, pending := None)
    {
      var joined := JoinRun(images, copy);
      if joined.Ok? {
        generatedImages := joined.value.0;
        generatedCopy := Some(joined.value.1);
        selectedIndex := 0;
      } else {
        error := Some(joined.msg);
      }
      isGenerating := false;
      pending := None;
    }

    /** `handleRegenerateCopy`: nothing when both halves of the source copy
        are empty; otherwise one copy request whose answer replaces the
        copy on success and is dropped on failure. Images, selection and
        error never change. Its button is rendered only with results shown. */
    method RegenerateCopy(answer: Outcome<SocialCopy>) returns (request: Option<CopyRequest>)
      requires Valid() && !isGenerating
      modifies this
      ensures Valid()
      ensures request.None? <==> originalCopy.title == "" && originalCopy.content == ""
      ensures request.Some? ==> request.value == CopyRequest(originalCopy.title, originalCopy.content)
      ensures generatedCopy == if request.Some? && answer.Ok? then Some(answer.value) else old(generatedCopy)
      ensures View().(generatedCopy := None) == old(View()).(generatedCopy := None)
    {
      if originalCopy.title == "" && originalCopy.content == "" {
        return None;
      }
      isGeneratingCopy := true;
      request := Some(CopyRequest(originalCopy.title, originalCopy.content));
      if answer.Ok? {
        generatedCopy := Some(answer.value);
      }
      isGeneratingCopy := false;
    }

    /** A click on a rendered result tile. */
    method SelectImage(idx: int)
      requires Valid() && 0 <= idx < |generatedImages|
      modifies this
      ensures Valid()
      ensures View() == old(View()).(selectedIndex := idx)
    {
      selectedIndex := idx;
    }

    /** The title input of the generated copy: the content is kept. */
    method EditTitle(text: string)
      requires Valid() && generatedCopy.Some?
      modifies this
      ensures Valid()
      ensures generatedCopy == Some(SocialCopy(text, old(generatedCopy).value.content))
      ensures View().(generatedCopy := None) == old(View()).(generatedCopy := None)
    {
      generatedCopy := Some(generatedCopy.value.(title := text));
    }

    /** The content textarea of the generated copy: the title is kept. */
    method EditContent(text: string)
      requires Valid() && generatedCopy.Some?
      modifies this
      ensures Valid()
      ensures generatedCopy == Some(SocialCopy(old(generatedCopy).value.title, text))
      ensures View().(generatedCopy := None) == old(View()).(generatedCopy := None)
    {
      generatedCopy := Some(generatedCopy.value.(content := text));
    }

    /** `handleNext`: what is passed to `onConfirm`, if anything: the
        selected image and the (edited) copy, only when both exist. */
    method Next() returns (confirmed: Option<(string, SocialCopy)>)
      requires Valid()
      ensures confirmed.Some? <==> |generatedImages| > 0 && generatedCopy.Some?
      ensures confirmed.Some? ==> confirmed.value == (generatedImages[selectedIndex], generatedCopy.value)
    {
      if |generatedImages| > 0 && generatedCopy.Some? {
        confirmed := Some((generatedImages[selectedIndex], generatedCopy.value));
      } else {
        confirmed := None;
      }
    }
  }
}
