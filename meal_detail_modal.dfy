/** The recipe modal: six pieces of state that opening the modal resets and
    fills from the recipe service, and that the video button fills from the
    video service. */
module MealDetail {
  import opened Outcomes
  import opened Json
  import opened Types
  import opened GeminiService

  const RecipeFailedMessage: string := "فشل تحميل تفاصيل الوصفة."
  const NoVideoMessage: string := "لم يتم العثور على فيديو لهذه الوصفة."
  const VideoFailedMessage: string := "فشل البحث عن الفيديو."

  /** A snapshot of the component's six `useState` values. */
  datatype ModalState = ModalState(
    recipe: Option<DetailedMealRecipe>, isLoadingRecipe: bool, recipeError: Option<string>,
    youtubeVideoId: Option<string>, isLoadingVideo: bool, videoError: Option<string>)

  /** The initial values, which `resetState` restores. */
  const Cleared: ModalState := ModalState(None, false, None, None, false, None)

  // ---------------------------------------------------------------------------
  // Opening the modal

  /** `isOpen && mealName`: the modal is open on a non-empty meal name. */
  predicate OpensWith(isOpen: bool, mealName: Option<string>)
  {
    isOpen && mealName.Some? && mealName.value != ""
  }

  /** What `getDetailedRecipe` settles with. */
  function RecipeResult(clientConfigured: bool, reply: Reply, parse: string -> Option<Json>): Result<DetailedMealRecipe>
  {
    if clientConfigured then Attempt(RecipePrefix, RecipeGeneric, reply, parse, CheckRecipe) else Err(NotConfiguredMessage)
  }

  /** A missing client rejects with the unprefixed message, a transport `Error`
      with the prefixed one; a recipe comes only from a reply that parses to a
      value of the recipe shape, and is the recipe that value denotes. */
  lemma RecipeResultMeaning(clientConfigured: bool, reply: Reply, parse: string -> Option<Json>)
    ensures var r := RecipeResult(clientConfigured, reply, parse);
            && (!clientConfigured ==> r == Err(NotConfiguredMessage))
            && (clientConfigured && reply.Failed? && reply.thrown.ErrorValue? ==>
                  r == Err(RecipePrefix + reply.thrown.message))
            && (clientConfigured && reply == Failed(OtherValue) ==> r == Err(RecipeGeneric))
            && (clientConfigured && reply.Text? && CheckRecipe(ParsedReply(reply.text, parse)).Err? ==>
                  r == Err(RecipePrefix + CheckRecipe(ParsedReply(reply.text, parse)).message))
            && (clientConfigured && reply.Text? && parse(ExtractJsonText(reply.text)).None? ==>
                  r == Err(RecipePrefix + RecipeShapeMessage))
            && (r.Ok? <==> clientConfigured && reply.Text? && IsRecipeShape(ParsedReply(reply.text, parse)))
            && (r.Ok? ==> r.value == RecipeOf(ParsedReply(reply.text, parse)))
  {
    AttemptWrapsFailures(RecipePrefix, RecipeGeneric, reply, parse, CheckRecipe);
  }

  /** The part of `fetchRecipe` after the `await`, `finally` included. */
  function WithRecipeOutcome(s: ModalState, outcome: Settled<DetailedMealRecipe>): ModalState
  {
    match outcome
    case Fulfilled(r) => s.(recipe := Some(r), isLoadingRecipe := false)
    case Rejected(t) => s.(recipeError := Some(MessageOr(t, RecipeFailedMessage)), isLoadingRecipe := false)
  }

  /** The whole of the open effect, given what the recipe service settles with
      (consulted only when the modal opens on a meal). */
  function OpenState(s: ModalState, isOpen: bool, mealName: Option<string>, service: Result<DetailedMealRecipe>)
    : ModalState
  {
    if OpensWith(isOpen, mealName) then
      WithRecipeOutcome(Cleared.(isLoadingRecipe := true, recipeError := None), Settle(service))
    else s
  }

  /** Closed, or open without a meal name, the effect changes nothing. Opened on
      a meal, nothing of the previous meal survives: no video, no video error,
      nothing loading, and exactly one of recipe and recipe error, taken from
      the service's answer. */
  lemma OpenOutcomes(s: ModalState, isOpen: bool, mealName: Option<string>, service: Result<DetailedMealRecipe>)
    ensures var t := OpenState(s, isOpen, mealName, service);
            && (!OpensWith(isOpen, mealName) ==> t == s)
            && (OpensWith(isOpen, mealName) ==>
                  && !t.isLoadingRecipe && !t.isLoadingVideo && t.youtubeVideoId.None? && t.videoError.None?
                  && (t.recipe.Some? <==> t.recipeError.None?)
                  && (t.recipe.Some? <==> service.Ok?)
                  && (service.Ok? ==> t.recipe == Some(service.value))
                  && (service.Err? ==> t.recipeError == Some(service.message)))
  {
  }

  // ---------------------------------------------------------------------------
  // The video lookup

  /** `recipe?.mealName` is truthy: there is a recipe and its name is not empty. */
  predicate CanFindVideo(s: ModalState)
  {
    s.recipe.Some? && s.recipe.value.mealName != ""
  }

  /** What `findRecipeVideo` settles with: the id, or None for `null`. */
  function VideoResult(clientConfigured: bool, reply: Reply, parse: string -> Option<Json>): Result<Option<string>>
  {
    if clientConfigured then Attempt(VideoPrefix, VideoGeneric, reply, parse, CheckVideo) else Err(NotConfiguredMessage)
  }

  /** A missing client rejects with the unprefixed message; an id comes only from
      a reply whose parsed `youtubeVideoId` is a string, and is that string. */
  lemma VideoResultMeaning(clientConfigured: bool, reply: Reply, parse: string -> Option<Json>)
    ensures var r := VideoResult(clientConfigured, reply, parse);
            && (!clientConfigured ==> r == Err(NotConfiguredMessage))
            && (clientConfigured && reply.Failed? && reply.thrown.ErrorValue? ==>
                  r == Err(VideoPrefix + reply.thrown.message))
            && (clientConfigured && reply == Failed(OtherValue) ==> r == Err(VideoGeneric))
            && (clientConfigured && reply.Text? && CheckVideo(ParsedReply(reply.text, parse)).Err? ==>
                  r == Err(VideoPrefix + CheckVideo(ParsedReply(reply.text, parse)).message))
            && (clientConfigured && reply.Text? && parse(ExtractJsonText(reply.text)).None? ==>
                  r == Err(VideoPrefix + VideoShapeMessage))
            && (r.Ok? && r.value.Some? ==>
                  && clientConfigured && reply.Text? && HasString(ParsedReply(reply.text, parse), "youtubeVideoId")
                  && r.value.value == StringAt(ParsedReply(reply.text, parse), "youtubeVideoId"))
  {
    AttemptWrapsFailures(VideoPrefix, VideoGeneric, reply, parse, CheckVideo);
  }

  /** The part of `handleFindVideo` after the `await`, `finally` included: only a
      non-empty id counts as found. */
  function WithVideoOutcome(s: ModalState, outcome: Settled<Option<string>>): ModalState
  {
    match outcome
    case Fulfilled(id) =>
      if id.Some? && id.value != "" then s.(youtubeVideoId := id, isLoadingVideo := false)
      else s.(videoError := Some(NoVideoMessage), isLoadingVideo := false)
    case Rejected(t) => s.(videoError := Some(MessageOr(t, VideoFailedMessage)), isLoadingVideo := false)
  }

  /** The whole of `handleFindVideo`, given what the video service settles with
      (consulted only when there is a recipe with a name). */
  function FindVideoState(s: ModalState, service: Result<Option<string>>): ModalState
  {
    if !CanFindVideo(s) then s
    else WithVideoOutcome(s.(isLoadingVideo := true, videoError := None, youtubeVideoId := None), Settle(service))
  }

  /** Without a named recipe the handler changes nothing. Otherwise the recipe
      part is untouched, loading ends false, and exactly one of id and error is
      set: the id when the service found a non-empty one, the "no video" message
      for `null` or an empty id, and the thrown message for a failure. */
  lemma FindVideoOutcomes(s: ModalState, service: Result<Option<string>>)
    ensures var t := FindVideoState(s, service);
            && (!CanFindVideo(s) ==> t == s)
            && (CanFindVideo(s) ==>
                  && t.recipe == s.recipe && t.isLoadingRecipe == s.isLoadingRecipe && t.recipeError == s.recipeError
                  && !t.isLoadingVideo
                  && (t.youtubeVideoId.Some? <==> t.videoError.None?)
                  && (t.youtubeVideoId.Some? <==> service.Ok? && service.value.Some? && service.value.value != "")
                  && (t.youtubeVideoId.Some? ==> t.youtubeVideoId == service.value)
                  && (service.Ok? && (service.value.None? || service.value == Some("")) ==>
                        t.videoError == Some(NoVideoMessage))
                  && (service.Err? ==> t.videoError == Some(service.message)))
  {
  }

  /** A second lookup on the same recipe gives the same state as the first:
      the handler starts from a cleared id and error each time. */
  lemma FindVideoForgetsPreviousLookup(s: ModalState, first: Result<Option<string>>, second: Result<Option<string>>)
    ensures FindVideoState(FindVideoState(s, first), second) == FindVideoState(s, second)
  {
  }

  // ---------------------------------------------------------------------------
  // The component

  class MealDetailModal {
    var recipe: Option<DetailedMealRecipe>
    var isLoadingRecipe: bool
    var recipeError: Option<string>
    var youtubeVideoId: Option<string>
    var isLoadingVideo: bool
    var videoError: Option<string>

    function State(): ModalState
      reads this
    {
      ModalState(recipe, isLoadingRecipe, recipeError, youtubeVideoId, isLoadingVideo, videoError)
    }

    constructor ()
      ensures State() == Cleared
    {
      recipe := None;
      isLoadingRecipe := false;
      recipeError := None;
      youtubeVideoId := None;
      isLoadingVideo := false;
      videoError := None;
    }

    method ResetState()
      modifies this
      ensures State() == Cleared
    {
      recipe := None;
      isLoadingRecipe := false;
      recipeError := None;
      youtubeVideoId := None;
      isLoadingVideo := false;
      videoError := None;
    }

    /** The open effect up to the `await`: the meal name to fetch, or None when
        the effect does nothing. */
    method BeginOpen(isOpen: bool, mealName: Option<string>) returns (fetch: Option<string>)
      modifies this
      ensures fetch.Some? <==> OpensWith(isOpen, mealName)
      ensures fetch.Some? ==> fetch == mealName && State() == Cleared.(isLoadingRecipe := true)
      ensures fetch.None? ==> State() == old(State())
    {
      if isOpen && mealName.Some? && mealName.value != "" {
        ResetState();
        isLoadingRecipe := true;
        recipeError := None;
        fetch := mealName;
      } else {
        fetch := None;
      }
    }

    method FinishFetchRecipe(outcome: Settled<DetailedMealRecipe>)
      modifies this
      ensures State() == WithRecipeOutcome(old(State()), outcome)
    {
      match outcome {
        case Fulfilled(r) =>
          recipe := Some(r);
        case Rejected(t) =>
          recipeError := Some(MessageOr(t, RecipeFailedMessage));
      }
      isLoadingRecipe := false;
    }

    /** The effect run when `isOpen` or `mealName` changes. */
    method HandleOpen(isOpen: bool, mealName: Option<string>, clientConfigured: bool, reply: Reply,
                      parse: string -> Option<Json>)
      modifies this
      ensures State() == OpenState(old(State()), isOpen, mealName, RecipeResult(clientConfigured, reply, parse))
    {
      var fetch := BeginOpen(isOpen, mealName);
      if fetch.Some? {
        var detailed, _ := GetDetailedRecipe(clientConfigured, fetch.value, reply, parse);
        FinishFetchRecipe(Settle(detailed));
      }
    }

    /** `handleFindVideo` up to the `await`: the name to look up, or None when the
        guard returned. */
    method BeginFindVideo() returns (query: Option<string>)
      modifies this
      ensures query.Some? <==> CanFindVideo(old(State()))
      ensures query.Some? ==>
                && query.value == old(recipe).value.mealName
                && State() == old(State()).(isLoadingVideo := true, videoError := None, youtubeVideoId := None)
      ensures query.None? ==> State() == old(State())
    {
      if recipe.None? || recipe.value.mealName == "" {
        return None;
      }
      isLoadingVideo := true;
      videoError := None;
      youtubeVideoId := None;
      query := Some(recipe.value.mealName);
    }

    method FinishFindVideo(outcome: Settled<Option<string>>)
      modifies this
      ensures State() == WithVideoOutcome(old(State()), outcome)
    {
      match outcome {
        case Fulfilled(id) =>
          if id.Some? && id.value != "" {
            youtubeVideoId := id;
          } else {
            videoError := Some(NoVideoMessage);
          }
        case Rejected(t) =>
          videoError := Some(MessageOr(t, VideoFailedMessage));
      }
      isLoadingVideo := false;
    }

    method HandleFindVideo(clientConfigured: bool, reply: Reply, parse: string -> Option<Json>)
      modifies this
      ensures State() == FindVideoState(old(State()), VideoResult(clientConfigured, reply, parse))
    {
      var query := BeginFindVideo();
      if query.Some? {
        var video, _ := FindRecipeVideo(clientConfigured, query.value, reply, parse);
        FinishFindVideo(Settle(video));
      }
    }
  }
}
