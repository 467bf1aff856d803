/**
 * `POST /api/rate`: a fixed sequence of guards (API key, description
 * present, description length, embedding dimension) before the rating head
 * is applied. The embedding service and `normalizeEmbedding` are parameters;
 * the result records the calls made to the embedding service and to
 * `predict`, so that the order of the guards can be stated.
 */
module RateRoute {
  import opened Wrappers
  import opened Text
  import RatingHead

  const EMBEDDING_DIM: nat := 768
  const MAX_DESCRIPTION_LENGTH: nat := 10000

  const NOT_CONFIGURED_MESSAGE: string := "Rating is not configured. Set GEMINI_API_KEY in .env."
  const EMPTY_DESCRIPTION_MESSAGE: string := "Missing or empty description."
  const TOO_LONG_MESSAGE: string := "Description must be at most 10000 characters."
  const BAD_DIMENSION_MESSAGE: string := "Embedding failed: unexpected dimension."
  const UNKNOWN_ERROR_MESSAGE: string := "Unknown error"

  /** A thrown value: an `Error` carrying a message, or anything else. */
  datatype Thrown = ErrorWithMessage(message: string) | NonError

  /** The request body: JSON that fails to parse throws; otherwise only a
      string `description` is kept. */
  datatype Body = Unparsable(error: Thrown) | Parsed(description: Option<string>)

  /** The embedding service's answer: a thrown error, or the values of the
      first embedding (`[]` when there is none). */
  datatype EmbedReply = EmbedThrew(error: Thrown) | EmbedValues(values: seq<real>)

  datatype Reply = ErrorReply(error: string) | RatingReply(rating: real)
  datatype Response = Response(status: nat, reply: Reply)

  /** The response, the texts sent to the embedding service and the vectors
      passed to `predict`. */
  datatype Handled = Handled(response: Response, embedded: seq<string>, predicted: seq<seq<real>>)

  /** A JavaScript string is truthy when it is present and not empty. */
  predicate Truthy(s: Option<string>) {
    s.Some? && s.value != ""
  }

  /** The `catch` clause's message. */
  function ErrorMessage(t: Thrown): string {
    match t
    case ErrorWithMessage(m) => m
    case NonError => UNKNOWN_ERROR_MESSAGE
  }

  /** `body.description.trim()` when it is a string, `''` otherwise. */
  function Description(d: Option<string>): (r: string)
    ensures IsTrimmed(r)
  {
    Trim(d.GetOr(""))
  }

  /** `POST(req)` */
  function RatePost(apiKey: Option<string>, body: Body, head: RatingHead.RawHead,
                    embed: string -> EmbedReply, normalize: seq<real> -> seq<real>): (h: Handled)
    // The API key is checked before anything else.
    ensures !Truthy(apiKey) ==> h == Handled(Response(500, ErrorReply(NOT_CONFIGURED_MESSAGE)), [], [])
    // The only 400s are the description checks, and they come before any embedding.
    ensures h.response.status == 400 <==>
              Truthy(apiKey) && body.Parsed? &&
              (Description(body.description) == "" || |Description(body.description)| > MAX_DESCRIPTION_LENGTH)
    ensures h.response.status in {200, 400, 500}
    ensures h.embedded != [] <==>
              Truthy(apiKey) && body.Parsed? && Description(body.description) != "" &&
              |Description(body.description)| <= MAX_DESCRIPTION_LENGTH
    ensures h.embedded != [] ==> h.embedded == [Description(body.description)]
    // `predict` sees the normalised vector, and only one of the right dimension.
    ensures h.predicted != [] ==>
              h.embedded != [] && embed(h.embedded[0]).EmbedValues? &&
              |embed(h.embedded[0]).values| == EMBEDDING_DIM &&
              h.predicted == [normalize(embed(h.embedded[0]).values)]
    ensures h.embedded != [] && embed(h.embedded[0]).EmbedValues? &&
            |embed(h.embedded[0]).values| != EMBEDDING_DIM ==>
              h.response == Response(500, ErrorReply(BAD_DIMENSION_MESSAGE)) && h.predicted == []
    // The catch clause: a 500 with the thrown error's message, or "Unknown error".
    ensures Truthy(apiKey) && body.Unparsable? ==>
              h == Handled(Response(500, ErrorReply(ErrorMessage(body.error))), [], [])
    ensures h.embedded != [] && embed(h.embedded[0]).EmbedThrew? ==>
              h.response == Response(500, ErrorReply(ErrorMessage(embed(h.embedded[0]).error))) && h.predicted == []
    ensures h.predicted != [] && RatingHead.Predicted(head, h.predicted[0]).Err? ==>
              h.response == Response(500, ErrorReply(RatingHead.Predicted(head, h.predicted[0]).error))
    // A rating is exactly what the head predicts.
    ensures h.response.reply.RatingReply? <==> h.response.status == 200
    ensures h.response.status == 200 ==>
              |h.predicted| == 1 &&
              RatingHead.Predicted(head, h.predicted[0]) == Ok(h.response.reply.rating)
  {
    if !Truthy(apiKey) then Handled(Response(500, ErrorReply(NOT_CONFIGURED_MESSAGE)), [], [])
    else match body
      case Unparsable(e) => Handled(Response(500, ErrorReply(ErrorMessage(e))), [], [])
      case Parsed(d) =>
        var description := Description(d);
        if description == "" then Handled(Response(400, ErrorReply(EMPTY_DESCRIPTION_MESSAGE)), [], [])
        else if |description| > MAX_DESCRIPTION_LENGTH then
          Handled(Response(400, ErrorReply(TOO_LONG_MESSAGE)), [], [])
        else match embed(description)
          case EmbedThrew(e) => Handled(Response(500, ErrorReply(ErrorMessage(e))), [description], [])
          case EmbedValues(raw) =>
            if |raw| != EMBEDDING_DIM then
              Handled(Response(500, ErrorReply(BAD_DIMENSION_MESSAGE)), [description], [])
            else
              var normed := normalize(raw);
              match RatingHead.Predicted(head, normed)
              case Err(m) => Handled(Response(500, ErrorReply(m)), [description], [normed])
              case Ok(rating) => Handled(Response(200, RatingReply(rating)), [description], [normed])
  }

  /** A trimmed, non-empty description of up to 10000 characters (10000
      included) is sent to the embedding service as it is; a longer one is
      refused with 400. */
  lemma LengthBoundary(apiKey: Option<string>, d: string, head: RatingHead.RawHead,
                       embed: string -> EmbedReply, normalize: seq<real> -> seq<real>)
    requires Truthy(apiKey) && IsTrimmed(d) && d != ""
    ensures |d| <= MAX_DESCRIPTION_LENGTH ==>
              RatePost(apiKey, Parsed(Some(d)), head, embed, normalize).embedded == [d]
    ensures |d| > MAX_DESCRIPTION_LENGTH ==>
              RatePost(apiKey, Parsed(Some(d)), head, embed, normalize).response
                == Response(400, ErrorReply(TOO_LONG_MESSAGE))
  {
    assert Description(Some(d)) == d by {
      TrimTrimmed(d);
    }
  }

  /** With a well-formed head and a length-preserving normaliser, an accepted
      description whose embedding has 768 values is always rated. */
  lemma RatedWhenWellFormed(apiKey: Option<string>, d: string, head: RatingHead.RawHead,
                            embed: string -> EmbedReply, normalize: seq<real> -> seq<real>)
    requires Truthy(apiKey) && RatingHead.GetHead(head).Ok?
    requires Description(Some(d)) != "" && |Description(Some(d))| <= MAX_DESCRIPTION_LENGTH
    requires embed(Description(Some(d))).EmbedValues?
    requires |embed(Description(Some(d))).values| == EMBEDDING_DIM
    requires |normalize(embed(Description(Some(d))).values)| == |embed(Description(Some(d))).values|
    ensures RatePost(apiKey, Parsed(Some(d)), head, embed, normalize).response.status == 200
  {
  }
}
