/**
 * `POST /api/chat`: request validation, the system instruction (every
 * composition as a block, plus the page context), the conversation sent to
 * the model, the bounded retry loop with its classifier, and the mapping of
 * the final error to a response. The model service, the database query and
 * the configured role text are parameters; sleeping is recorded as the
 * list of delays asked for.
 */
module ChatRoute {
  import opened Wrappers
  import opened Text

  const MAX_RETRIES: nat := 3
  const RETRY_DELAY_MS: nat := 1500

  const RATE_LIMIT_MESSAGE: string := "Woah! You've got a lot of questions. I'm not even sure Boss Kevin could answer this fast. Give me a second though and I'll see if I can find him for you."
  const OVERLOADED_MESSAGE: string := "I'm answering someone else's question real quick, I'll be right back with you!"
  const NO_API_KEY_MESSAGE: string := "Chat is not configured. Set GEMINI_API_KEY in .env (or .env.local) and restart the dev server."
  const INVALID_MESSAGE_MESSAGE: string := "Missing or invalid message."
  const DEFAULT_ERROR_MESSAGE: string := "Something went wrong. Please try again."

  const BLOCK_SEP: string := "\n\n"
  const CONTEXT_PREFIX: string := "\n\nCurrent context: "

  /** A JavaScript string is truthy when it is present and not empty. */
  predicate Truthy(s: Option<string>) {
    s.Some? && s.value != ""
  }

  // ---------------------------------------------------------------------
  // The compositions blob
  // ---------------------------------------------------------------------

  datatype Composition = Composition(id: string, title: string, content: string, genre: string)

  /** The first line of a block: `[genre] "title" (id: id)` and a newline. */
  function BlockHeader(c: Composition): string {
    "[" + c.genre + "] \"" + c.title + "\" (id: " + c.id + ")\n"
  }

  /** The header line, the content as it is, a newline and `---`. */
  function Block(c: Composition): (b: string)
    ensures StartsWith(b, BlockHeader(c))
    ensures |b| == |BlockHeader(c)| + |c.content| + 4
    ensures b[|BlockHeader(c)|..|b| - 4] == c.content
    ensures b[|b| - 4..] == "\n---"
  {
    var head := BlockHeader(c);
    var b := head + c.content + "\n---";
    assert b[..|head|] == head;
    assert b[|head|..|b| - 4] == c.content;
    b
  }

  function Blocks(cs: seq<Composition>): (r: seq<string>)
    ensures |r| == |cs| && forall i :: 0 <= i < |cs| ==> r[i] == Block(cs[i])
  {
    seq(|cs|, i requires 0 <= i < |cs| => Block(cs[i]))
  }

  /** `compositionsBlob`: the blocks in query order, a blank line between two. */
  function CompositionsBlob(cs: seq<Composition>): string {
    Join(Blocks(cs), BLOCK_SEP)
  }

  /** One more composition appends a blank line and its block. */
  lemma CompositionsBlobPush(cs: seq<Composition>, c: Composition)
    ensures CompositionsBlob(cs + [c])
         == if cs == [] then Block(c) else CompositionsBlob(cs) + BLOCK_SEP + Block(c)
  {
    assert Blocks(cs + [c]) == Blocks(cs) + [Block(c)];
    JoinPush(Blocks(cs), Block(c), BLOCK_SEP);
  }

  /** The blob of one composition is its block; with none it is empty. */
  lemma CompositionsBlobSmall(c: Composition)
    ensures CompositionsBlob([]) == "" && CompositionsBlob([c]) == Block(c)
  {
    assert Blocks([c]) == [Block(c)];
  }

  // ---------------------------------------------------------------------
  // The context blob
  // ---------------------------------------------------------------------

  /** `compositions.find((c) => c.id === id)`: the first composition with that id. */
  function FindById(cs: seq<Composition>, id: string): (r: Option<Composition>)
    ensures r.None? <==> forall i :: 0 <= i < |cs| ==> cs[i].id != id
    ensures r.Some? ==> exists i :: 0 <= i < |cs| && cs[i] == r.value && r.value.id == id &&
                          forall j :: 0 <= j < i ==> cs[j].id != id
  {
    if cs == [] then None
    else if cs[0].id == id then Some(cs[0])
    else
      var r := FindById(cs[1..], id);
      assert r.Some? ==> exists i :: 0 <= i < |cs| && cs[i] == r.value && r.value.id == id &&
                          forall j :: 0 <= j < i ==> cs[j].id != id by {
        if r.Some? {
          var i :| 0 <= i < |cs| - 1 && cs[1..][i] == r.value && r.value.id == id &&
                   forall j :: 0 <= j < i ==> cs[1..][j].id != id;
          assert cs[i + 1] == r.value;
          forall j | 0 <= j < i + 1 ensures cs[j].id != id {
            if j > 0 { assert cs[j] == cs[1..][j - 1]; }
          }
        }
      }
      r
  }

  function GenreSentence(genre: string): string {
    "The user is currently on the " + genre + " page."
  }

  function ViewingSentence(title: string): string {
    " They are viewing the composition \"" + title + "\"."
  }

  /** The composition the user is viewing, when the id is set and loaded. */
  function Viewed(cs: seq<Composition>, currentCompositionId: Option<string>): Option<Composition> {
    if Truthy(currentCompositionId) then FindById(cs, currentCompositionId.value) else None
  }

  /** The context sentences, before the prefix. */
  function ContextSentences(cs: seq<Composition>, currentGenre: Option<string>,
                            currentCompositionId: Option<string>): string {
    (if Truthy(currentGenre) then GenreSentence(currentGenre.value) else "")
    + (match Viewed(cs, currentCompositionId)
       case Some(c) => ViewingSentence(c.title)
       case None => "")
  }

  /**
   * `contextBlob`, built by `+=`: the genre sentence only when a genre is
   * set, the viewing sentence only when the id names a loaded composition,
   * and the "Current context" prefix only when something was said.
   */
  method BuildContextBlob(cs: seq<Composition>, currentGenre: Option<string>,
                          currentCompositionId: Option<string>) returns (blob: string)
    ensures blob == (if ContextSentences(cs, currentGenre, currentCompositionId) == "" then ""
                     else CONTEXT_PREFIX + ContextSentences(cs, currentGenre, currentCompositionId))
    ensures blob == "" <==> !Truthy(currentGenre) && Viewed(cs, currentCompositionId).None?
    ensures Truthy(currentGenre) ==> StartsWith(blob, CONTEXT_PREFIX + GenreSentence(currentGenre.value))
    ensures !Truthy(currentGenre) && Viewed(cs, currentCompositionId).Some? ==>
              blob == CONTEXT_PREFIX + ViewingSentence(Viewed(cs, currentCompositionId).value.title)
  {
    blob := "";
    if Truthy(currentGenre) {
      blob := blob + GenreSentence(currentGenre.value);
    }
    if Truthy(currentCompositionId) {
      var curr := FindById(cs, currentCompositionId.value);
      if curr.Some? {
        blob := blob + ViewingSentence(curr.value.title);
      }
    }
    ghost var sentences := blob;
    assert sentences == ContextSentences(cs, currentGenre, currentCompositionId);
    if blob != "" {
      blob := CONTEXT_PREFIX + blob;
    }
    ContextBlobShape(cs, currentGenre, currentCompositionId, blob);
  }

  /** What the blob says, read off the sentences it is made of. */
  lemma ContextBlobShape(cs: seq<Composition>, currentGenre: Option<string>,
                         currentCompositionId: Option<string>, blob: string)
    requires blob == (if ContextSentences(cs, currentGenre, currentCompositionId) == "" then ""
                      else CONTEXT_PREFIX + ContextSentences(cs, currentGenre, currentCompositionId))
    ensures blob == "" <==> !Truthy(currentGenre) && Viewed(cs, currentCompositionId).None?
    ensures Truthy(currentGenre) ==> StartsWith(blob, CONTEXT_PREFIX + GenreSentence(currentGenre.value))
    ensures !Truthy(currentGenre) && Viewed(cs, currentCompositionId).Some? ==>
              blob == CONTEXT_PREFIX + ViewingSentence(Viewed(cs, currentCompositionId).value.title)
  {
    var genre := if Truthy(currentGenre) then GenreSentence(currentGenre.value) else "";
    var viewing := match Viewed(cs, currentCompositionId)
                   case Some(c) => ViewingSentence(c.title)
                   case None => "";
    assert Truthy(currentGenre) <==> genre != "";
    assert Viewed(cs, currentCompositionId).Some? <==> viewing != "";
    PrefixedShape(genre, viewing, blob);
  }

  /** The prefix goes in front of two sentences when either is there. */
  lemma PrefixedShape(genre: string, viewing: string, blob: string)
    requires blob == (if genre + viewing == "" then "" else CONTEXT_PREFIX + (genre + viewing))
    ensures blob == "" <==> genre == "" && viewing == ""
    ensures genre != "" ==> StartsWith(blob, CONTEXT_PREFIX + genre)
    ensures genre == "" ==> blob == (if viewing == "" then "" else CONTEXT_PREFIX + viewing)
  {
    if genre != "" {
      var head := CONTEXT_PREFIX + genre;
      assert blob == head + viewing;
      assert blob[..|head|] == head;
    } else {
      assert genre + viewing == viewing;
    }
  }

  /** The system instruction: the role text, the fixed introduction, the
      context blob, and the compositions after their header. */
  function SystemInstruction(role: string, contextBlob: string, compositionsBlob: string): string {
    role + "\n\nBelow are all of Kevin Pillsbury's compositions. Use them to answer questions. "
    + "Each block is [genre] \"title\" (id) followed by the full text.\n"
    + contextBlob + "\n\n--- COMPOSITIONS ---\n\n" + compositionsBlob
  }

  // ---------------------------------------------------------------------
  // The conversation sent to the model
  // ---------------------------------------------------------------------

  /** A history entry as the client sends it; any role is possible. */
  datatype HistoryMessage = HistoryMessage(role: string, content: string)

  datatype GenRole = UserRole | ModelRole
  datatype Content = Content(role: GenRole, text: string)

  function RoleOf(role: string): GenRole {
    if role == "assistant" then ModelRole else UserRole
  }

  /** The history with assistant turns as the model's, everything else as the
      user's, in order, then the new message as the user's. */
  function Contents(history: seq<HistoryMessage>, message: string): (r: seq<Content>)
    ensures |r| == |history| + 1
    ensures forall i :: 0 <= i < |history| ==>
              r[i].text == history[i].content && (r[i].role == ModelRole <==> history[i].role == "assistant")
    ensures r[|history|] == Content(UserRole, message)
  {
    seq(|history|, i requires 0 <= i < |history| => Content(RoleOf(history[i].role), history[i].content))
    + [Content(UserRole, message)]
  }

  /** The `contents` loop. */
  method BuildContents(history: seq<HistoryMessage>, message: string) returns (contents: seq<Content>)
    ensures contents == Contents(history, message)
  {
    contents := [];
    for i := 0 to |history|
      invariant |contents| == i
      invariant forall k :: 0 <= k < i ==> contents[k] == Content(RoleOf(history[k].role), history[k].content)
    {
      var m := history[i];
      var role := if m.role == "assistant" then ModelRole else UserRole;
      contents := contents + [Content(role, m.content)];
    }
    contents := contents + [Content(UserRole, message)];
  }

  // ---------------------------------------------------------------------
  // Classifying errors
  // ---------------------------------------------------------------------

  /** What the route reads of a thrown value: its `status` when it is a
      number and `String(message ?? '')`. */
  datatype Thrown = Thrown(status: Option<int>, message: string)

  /** The characters `.` does not match. */
  predicate IsLineTerminator(c: char) {
    c == '\n' || c == '\r' || c == '\U{2028}' || c == '\U{2029}'
  }

  /** `a.?b` matches at the start of `s`. */
  predicate GapMatch(s: string, a: string, b: string) {
    StartsWith(s, a) &&
    (StartsWith(s[|a|..], b) || (|s| > |a| && !IsLineTerminator(s[|a|]) && StartsWith(s[|a| + 1..], b)))
  }

  /** `/a.?b/` matches somewhere in `s`. */
  predicate ContainsGapped(s: string, a: string, b: string)
    decreases |s|
  {
    GapMatch(s, a, b) || (|s| > 0 && ContainsGapped(s[1..], a, b))
  }

  /** `/resource.?exhausted|quota.?exceeded/i` */
  predicate RateLimitText(msg: string) {
    var m := AsciiLower(msg);
    ContainsGapped(m, "resource", "exhausted") || ContainsGapped(m, "quota", "exceeded")
  }

  /** `/overloaded|unavailable/i` */
  predicate OverloadedText(msg: string) {
    var m := AsciiLower(msg);
    Contains(m, "overloaded") || Contains(m, "unavailable")
  }

  /** The retry loop's test. */
  predicate IsRetryable(e: Thrown) {
    e.status == Some(503) || e.status == Some(429) || RateLimitText(e.message) || OverloadedText(e.message)
  }

  predicate IsRateLimit(e: Thrown) {
    e.status == Some(429) || RateLimitText(e.message)
  }

  predicate IsOverloaded(e: Thrown) {
    e.status == Some(503) || OverloadedText(e.message)
  }

  datatype Reply = TextReply(text: string) | ErrorReply(error: string)
  datatype Response = Response(status: nat, reply: Reply)

  /** The `catch` clause: rate limiting is tested before overloading; every
      other error is a 500 with its message, or a default one. */
  function ErrorResponse(e: Thrown): (r: Response)
    ensures r.status == 429 <==> IsRateLimit(e)
    ensures r.status == 503 <==> IsOverloaded(e) && !IsRateLimit(e)
    ensures r.status == 500 <==> !IsRateLimit(e) && !IsOverloaded(e)
    ensures r.status == 500 ==> r.reply == ErrorReply(if e.message == "" then DEFAULT_ERROR_MESSAGE else e.message)
    ensures r.reply.ErrorReply? && r.reply.error != ""
  {
    if IsRateLimit(e) then Response(429, ErrorReply(RATE_LIMIT_MESSAGE))
    else if IsOverloaded(e) then Response(503, ErrorReply(OVERLOADED_MESSAGE))
    else Response(500, ErrorReply(if e.message == "" then DEFAULT_ERROR_MESSAGE else e.message))
  }

  /** The errors worth retrying are exactly those the final mapping reports
      as rate limiting or overloading. */
  lemma RetryableIsMapped(e: Thrown)
    ensures IsRetryable(e) <==> ErrorResponse(e).status != 500
  {
  }

  /** The matching is case-insensitive: upper-case messages classify as
      their lower-case forms. */
  lemma ClassifyIgnoresCase(e: Thrown)
    ensures IsRetryable(e) <==> IsRetryable(Thrown(e.status, AsciiLower(e.message)))
  {
    var m := e.message;
    assert AsciiLower(AsciiLower(m)) == AsciiLower(m);
  }

  // ---------------------------------------------------------------------
  // The retry loop
  // ---------------------------------------------------------------------

  /** The model service's answer to attempt k: text (or none), or an error. */
  datatype GenOutcome = Generated(text: Option<string>) | GenFailed(error: Thrown)

  /** Where the loop ends: the text or the error thrown on, how many attempts
      were made, and the delays slept between them. */
  datatype RetryRun = RetryRun(result: Result<string, Thrown>, attempts: nat, delays: seq<nat>)

  /** The delay after failed attempt k (from 0): 1500 ms times k + 1. */
  function RetryDelay(attempt: nat): nat {
    RETRY_DELAY_MS * (attempt + 1)
  }

  /**
   * The loop from attempt `attempt` on: a success returns its text; an
   * error is rethrown at once unless it is retryable and attempts remain.
   * At most MAX_RETRIES attempts; every attempt but the last failed with a
   * retryable error and was followed by its delay.
   */
  function RetryFrom(gen: nat -> GenOutcome, attempt: nat): (r: RetryRun)
    requires attempt < MAX_RETRIES
    ensures attempt < r.attempts <= MAX_RETRIES
    ensures |r.delays| == r.attempts - attempt - 1
    ensures forall i :: 0 <= i < |r.delays| ==> r.delays[i] == RetryDelay(attempt + i)
    ensures forall k :: attempt <= k < r.attempts - 1 ==> gen(k).GenFailed? && IsRetryable(gen(k).error)
    ensures r.result.Ok? ==> gen(r.attempts - 1).Generated? &&
                             r.result.value == gen(r.attempts - 1).text.GetOr("")
    ensures r.result.Err? ==> gen(r.attempts - 1) == GenFailed(r.result.error) &&
                              (!IsRetryable(r.result.error) || r.attempts == MAX_RETRIES)
    decreases MAX_RETRIES - attempt
  {
    match gen(attempt)
    case Generated(text) => RetryRun(Ok(text.GetOr("")), attempt + 1, [])
    case GenFailed(e) =>
      if !IsRetryable(e) || attempt == MAX_RETRIES - 1 then RetryRun(Err(e), attempt + 1, [])
      else
        var rest := RetryFrom(gen, attempt + 1);
        RetryRun(rest.result, rest.attempts, [RetryDelay(attempt)] + rest.delays)
  }

  /** A run preceded by the delays of the attempts before it. */
  function After(delays: seq<nat>, run: RetryRun): RetryRun {
    RetryRun(run.result, run.attempts, delays + run.delays)
  }

  /** The `for (attempt ...)` loop around `generateContent`. */
  method GenerateWithRetry(gen: nat -> GenOutcome) returns (result: Result<string, Thrown>, attempts: nat, delays: seq<nat>)
    ensures RetryRun(result, attempts, delays) == RetryFrom(gen, 0)
    ensures 1 <= attempts <= MAX_RETRIES && |delays| == attempts - 1
  {
    var attempt: nat := 0;
    delays := [];
    assert After(delays, RetryFrom(gen, 0)) == RetryFrom(gen, 0);
    while true
      invariant attempt < MAX_RETRIES
      invariant RetryFrom(gen, 0) == After(delays, RetryFrom(gen, attempt))
      decreases MAX_RETRIES - attempt
    {
      var outcome := gen(attempt);
      if outcome.Generated? {
        result, attempts := Ok(outcome.text.GetOr("")), attempt + 1;
        RetryEnds(gen, attempt, delays, RetryRun(result, attempts, []));
        return;
      }
      var e := outcome.error;
      var retryable := IsRetryable(e);
      if !retryable || attempt == MAX_RETRIES - 1 {
        result, attempts := Err(e), attempt + 1;
        RetryEnds(gen, attempt, delays, RetryRun(result, attempts, []));
        return;
      }
      RetryGoesOn(gen, attempt, delays);
      delays := delays + [RetryDelay(attempt)];
      attempt := attempt + 1;
    }
  }

  /** The loop's exit: the run from `attempt` is the single last attempt. */
  lemma RetryEnds(gen: nat -> GenOutcome, attempt: nat, delays: seq<nat>, last: RetryRun)
    requires attempt < MAX_RETRIES
    requires RetryFrom(gen, attempt) == last && last.delays == []
    ensures After(delays, RetryFrom(gen, attempt)) == RetryRun(last.result, last.attempts, delays)
  {
    assert delays + [] == delays;
  }

  /** The loop's step: a retryable failure before the last attempt adds its
      delay and continues from the next attempt. */
  lemma RetryGoesOn(gen: nat -> GenOutcome, attempt: nat, delays: seq<nat>)
    requires attempt < MAX_RETRIES - 1
    requires gen(attempt).GenFailed? && IsRetryable(gen(attempt).error)
    ensures After(delays, RetryFrom(gen, attempt)) == After(delays + [RetryDelay(attempt)], RetryFrom(gen, attempt + 1))
  {
    var rest := RetryFrom(gen, attempt + 1);
    assert RetryFrom(gen, attempt) == After([RetryDelay(attempt)], rest);
    assert delays + ([RetryDelay(attempt)] + rest.delays) == (delays + [RetryDelay(attempt)]) + rest.delays;
  }

  /** A non-retryable first error is thrown after one attempt, with no delay. */
  lemma NonRetryableStopsAtOnce(gen: nat -> GenOutcome)
    requires gen(0).GenFailed? && !IsRetryable(gen(0).error)
    ensures RetryFrom(gen, 0) == RetryRun(Err(gen(0).error), 1, [])
  {
  }

  /** Three retryable errors in a row: three attempts, 1500 then 3000 ms of
      delay, and the last error is thrown. */
  lemma AllRetryableFail(gen: nat -> GenOutcome)
    requires forall k :: 0 <= k < MAX_RETRIES ==> gen(k).GenFailed? && IsRetryable(gen(k).error)
    ensures RetryFrom(gen, 0) == RetryRun(Err(gen(2).error), 3, [1500, 3000])
  {
    assert gen(0).GenFailed? && gen(1).GenFailed? && gen(2).GenFailed?;
  }

  // ---------------------------------------------------------------------
  // The whole request
  // ---------------------------------------------------------------------

  /** The parsed request body; `message` is kept only when it is a string and
      `history` defaults to `[]`. */
  datatype ChatBody = Unparsable(error: Thrown)
                    | ChatBody(message: Option<string>, currentCompositionId: Option<string>,
                               currentGenre: Option<string>, history: Option<seq<HistoryMessage>>)

  /** What is sent to the model. */
  datatype GenRequest = GenRequest(contents: seq<Content>, systemInstruction: string)

  /** `POST(req)` */
  method HandleChat(apiKey: Option<string>, body: ChatBody, compositions: Result<seq<Composition>, Thrown>,
                    role: string, gen: nat -> GenOutcome)
    returns (response: Response, request: Option<GenRequest>, delays: seq<nat>)
    ensures !Truthy(apiKey) ==> response == Response(500, ErrorReply(NO_API_KEY_MESSAGE)) && request.None?
    ensures Truthy(apiKey) && body.Unparsable? ==> response == ErrorResponse(body.error) && request.None?
    ensures Truthy(apiKey) && body.ChatBody? && !Truthy(body.message) ==>
              response == Response(400, ErrorReply(INVALID_MESSAGE_MESSAGE)) && request.None?
    ensures response.status == 400 <==> Truthy(apiKey) && body.ChatBody? && !Truthy(body.message)
    ensures request.Some? <==> Truthy(apiKey) && body.ChatBody? && Truthy(body.message) && compositions.Ok?
    ensures request.Some? ==>
              var cs := compositions.value;
              var blob := ContextSentences(cs, body.currentGenre, body.currentCompositionId);
              request.value == GenRequest(
                Contents(body.history.GetOr([]), body.message.value),
                SystemInstruction(role, if blob == "" then "" else CONTEXT_PREFIX + blob, CompositionsBlob(cs)))
    ensures request.Some? ==>
              var run := RetryFrom(gen, 0);
              delays == run.delays &&
              response == (match run.result
                           case Ok(text) => Response(200, TextReply(text))
                           case Err(e) => ErrorResponse(e))
    ensures request.None? ==> delays == []
  {
    delays := [];
    request := None;
    if !Truthy(apiKey) {
      return Response(500, ErrorReply(NO_API_KEY_MESSAGE)), request, delays;
    }
    if body.Unparsable? {
      return ErrorResponse(body.error), request, delays;
    }
    var message := body.message;
    if !Truthy(message) {
      return Response(400, ErrorReply(INVALID_MESSAGE_MESSAGE)), request, delays;
    }
    if compositions.Err? {
      response := ErrorResponse(compositions.error);
      assert response.status != 400;
      return;
    }
    var cs := compositions.value;
    var compositionsBlob := CompositionsBlob(cs);
    var contextBlob := BuildContextBlob(cs, body.currentGenre, body.currentCompositionId);
    var systemInstruction := SystemInstruction(role, contextBlob, compositionsBlob);
    var contents := BuildContents(body.history.GetOr([]), message.value);
    request := Some(GenRequest(contents, systemInstruction));
    var result, attempts;
    result, attempts, delays := GenerateWithRetry(gen);
    match result {
      case Ok(text) => response := Response(200, TextReply(text));
      case Err(e) => response := ErrorResponse(e);
    }
  }
}
