/**
 * The chat provider's state: the transcript, the loading flag, the error
 * and the page context, updated by `sendMessage`, `setCurrentContext` and
 * `clearError`. `sendMessage` is split at its `await`: `BeginSend` is the
 * optimistic part that runs before the request, `FinishSend` what runs once
 * the request has ended; the request's outcome is a parameter.
 */
module ChatContext {
  import opened Wrappers
  import opened Text

  const REQUEST_FAILED_MESSAGE: string := "Something went wrong."
  const RETRY_MESSAGE: string := "Something went wrong. Please try again."

  datatype Role = User | Assistant
  datatype ChatMessage = ChatMessage(role: Role, content: string)

  /** The JSON body posted to `/api/chat`. */
  datatype ChatRequest = ChatRequest(message: string, currentCompositionId: Option<string>,
                                     currentGenre: Option<string>, history: seq<ChatMessage>)

  /** How the request ended: `fetch` or `res.json()` threw, or a response
      arrived with its `ok` flag and its `error` and `text` fields when
      those are strings. */
  datatype FetchOutcome = FetchThrew | Responded(ok: bool, error: Option<string>, text: Option<string>)

  /** `prev.slice(0, -1)`: everything but the last message. */
  function DropLast(ms: seq<ChatMessage>): (r: seq<ChatMessage>)
    ensures |r| == if ms == [] then 0 else |ms| - 1
    ensures forall i :: 0 <= i < |r| ==> r[i] == ms[i]
  {
    if ms == [] then [] else ms[..|ms| - 1]
  }

  /** Rolling back an append restores the transcript. */
  lemma DropLastPush(ms: seq<ChatMessage>, m: ChatMessage)
    ensures DropLast(ms + [m]) == ms
  {
    assert (ms + [m])[..|ms|] == ms;
  }

  /** Whether the request failed, and the error it then shows. */
  function FailureMessage(outcome: FetchOutcome): (r: Option<string>)
    ensures r.None? <==> outcome.Responded? && outcome.ok
    ensures outcome == FetchThrew ==> r == Some(RETRY_MESSAGE)
    ensures outcome.Responded? && !outcome.ok ==> r == Some(outcome.error.GetOr(REQUEST_FAILED_MESSAGE))
  {
    match outcome
    case FetchThrew => Some(RETRY_MESSAGE)
    case Responded(ok, error, _) => if ok then None else Some(error.GetOr(REQUEST_FAILED_MESSAGE))
  }

  class ChatProvider {
    var messages: seq<ChatMessage>
    var isLoading: bool
    var error: Option<string>
    var currentGenre: Option<string>
    var currentCompositionId: Option<string>
    var currentCompositionTitle: Option<string>

    constructor()
      ensures messages == [] && !isLoading && error == None
      ensures currentGenre == None && currentCompositionId == None && currentCompositionTitle == None
    {
      messages := [];
      isLoading := false;
      error := None;
      currentGenre := None;
      currentCompositionId := None;
      currentCompositionTitle := None;
    }

    /** `setCurrentContext(genre, compositionId, compositionTitle)` */
    method SetCurrentContext(genre: Option<string>, compositionId: Option<string>, compositionTitle: Option<string>)
      modifies this
      ensures currentGenre == genre && currentCompositionId == compositionId
      ensures currentCompositionTitle == compositionTitle
      ensures messages == old(messages) && isLoading == old(isLoading) && error == old(error)
    {
      currentGenre := genre;
      currentCompositionId := compositionId;
      currentCompositionTitle := compositionTitle;
    }

    /** `clearError()` */
    method ClearError()
      modifies this
      ensures error == None
      ensures messages == old(messages) && isLoading == old(isLoading)
      ensures currentGenre == old(currentGenre) && currentCompositionId == old(currentCompositionId)
      ensures currentCompositionTitle == old(currentCompositionTitle)
    {
      error := None;
    }

    /**
     * `sendMessage(text)` up to the request: blank text does nothing;
     * otherwise the error is cleared, the trimmed text is appended as a user
     * message and loading starts. The request carries the transcript as it
     * was before the append.
     */
    method BeginSend(text: string) returns (request: Option<ChatRequest>)
      modifies this
      ensures Trim(text) == "" ==>
                request == None && messages == old(messages) && isLoading == old(isLoading) && error == old(error)
      ensures Trim(text) != "" ==>
                && request == Some(ChatRequest(Trim(text), old(currentCompositionId), old(currentGenre), old(messages)))
                && messages == old(messages) + [ChatMessage(User, Trim(text))]
                && isLoading && error == None
      ensures currentGenre == old(currentGenre) && currentCompositionId == old(currentCompositionId)
      ensures currentCompositionTitle == old(currentCompositionTitle)
    {
      var trimmed := Trim(text);
      if trimmed == "" {
        request := None;
      } else {
        request := Some(ChatRequest(trimmed, currentCompositionId, currentGenre, messages));
        messages := messages + [ChatMessage(User, trimmed)];
        error := None;
        isLoading := true;
      }
    }

    /**
     * The rest of `sendMessage`: a failed request shows its error and drops
     * the last message; a successful one appends the reply (`''` when `text`
     * is not a string). Loading always ends.
     */
    method FinishSend(outcome: FetchOutcome)
      modifies this
      ensures FailureMessage(outcome).Some? ==>
                messages == DropLast(old(messages)) && error == FailureMessage(outcome)
      ensures FailureMessage(outcome).None? ==>
                messages == old(messages) + [ChatMessage(Assistant, outcome.text.GetOr(""))] &&
                error == old(error)
      ensures !isLoading
      ensures currentGenre == old(currentGenre) && currentCompositionId == old(currentCompositionId)
      ensures currentCompositionTitle == old(currentCompositionTitle)
    {
      match outcome {
        case FetchThrew =>
          error := Some(RETRY_MESSAGE);
          messages := DropLast(messages);
        case Responded(ok, err, text) =>
          if !ok {
            error := Some(err.GetOr(REQUEST_FAILED_MESSAGE));
            messages := DropLast(messages);
          } else {
            messages := messages + [ChatMessage(Assistant, text.GetOr(""))];
          }
      }
      isLoading := false;
    }

    /**
     * `sendMessage(text)` from start to end. A failed send leaves the
     * transcript exactly as it was; a successful one adds the user message
     * and the reply, in that order.
     */
    method SendMessage(text: string, outcome: FetchOutcome) returns (request: Option<ChatRequest>)
      modifies this
      ensures Trim(text) == "" ==>
                request == None && messages == old(messages) && isLoading == old(isLoading) && error == old(error)
      ensures Trim(text) != "" ==>
                && request == Some(ChatRequest(Trim(text), old(currentCompositionId), old(currentGenre), old(messages)))
                && !isLoading
                && (FailureMessage(outcome).Some? ==> messages == old(messages) && error == FailureMessage(outcome))
                && (FailureMessage(outcome).None? ==>
                      messages == old(messages) + [ChatMessage(User, Trim(text)), ChatMessage(Assistant, outcome.text.GetOr(""))] &&
                      error == None)
      ensures currentGenre == old(currentGenre) && currentCompositionId == old(currentCompositionId)
      ensures currentCompositionTitle == old(currentCompositionTitle)
    {
      request := BeginSend(text);
      if request.None? {
        return;
      }
      ghost var sent := messages;
      FinishSend(outcome);
      DropLastPush(old(messages), ChatMessage(User, Trim(text)));
      if outcome.Responded? && outcome.ok {
        assert sent + [ChatMessage(Assistant, outcome.text.GetOr(""))]
            == old(messages) + [ChatMessage(User, Trim(text)), ChatMessage(Assistant, outcome.text.GetOr(""))];
      }
    }
  }
}
