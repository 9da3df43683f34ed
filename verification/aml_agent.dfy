/** The AML agent's `/chat` endpoint: the empty-message guard and the wrapping of the language
    model's reply. The model is an uninterpreted function from the user's text to the reply's
    content (absent when the model returns none); `JSON.parse` is a partial function. */
module AmlAgent {
  import opened Base

  /** The agent's sentinel for a missing message. */
  const EMPTY: string := "Empty"
  /** The text returned, without consulting the model, for a missing or sentinel message. */
  const EMPTY_TEXT: string := "Empty Text"
  /** What is parsed when the model's reply has no content. */
  const NO_CONTENT: string := "{}"

  /** The endpoint's outcomes: `{ text: "Empty Text" }`, `{ text: <parsed reply> }`, or a failed
      request because `JSON.parse` threw. */
  datatype Response<J> =
    | EmptyText
    | Parsed(value: J)
    | ServerError

  /** `body.message ?? "Empty"`: only a missing (null or undefined) message is replaced. */
  function MessageText(message: Option<string>): (txt: string)
    ensures message.Some? ==> txt == message.value
    ensures message.None? ==> txt == EMPTY
  {
    message.GetOr(EMPTY)
  }

  /** The guard that short-circuits the model. */
  predicate IsEmptyRequest(message: Option<string>) {
    MessageText(message) == EMPTY
  }

  /** The text handed to `JSON.parse`: the model's content, or "{}" when it has none. */
  function ModelContent(text: string, complete: string -> Option<string>): (c: string)
    ensures complete(text).Some? ==> c == complete(text).value
    ensures complete(text).None? ==> c == NO_CONTENT
  {
    complete(text).GetOr(NO_CONTENT)
  }

  /** The `/chat` handler. */
  function HandleChat<J>(message: Option<string>, complete: string -> Option<string>,
                         parse: string -> Option<J>): (r: Response<J>)
    ensures r.EmptyText? <==> message.None? || message == Some(EMPTY)
    ensures r.Parsed? <==> message.Some? && message.value != EMPTY
                           && parse(ModelContent(message.value, complete)).Some?
    ensures r.Parsed? ==> r.value == parse(ModelContent(message.value, complete)).value
    ensures r.ServerError? <==> message.Some? && message.value != EMPTY
                                && parse(ModelContent(message.value, complete)).None?
  {
    var txt := MessageText(message);
    if txt == EMPTY then EmptyText
    else
      match parse(ModelContent(txt, complete))
      case Some(v) => Parsed(v)
      case None => ServerError
  }

  /** On a missing or sentinel message the model is never consulted: the response is the same
      whatever the model would have said. */
  lemma EmptyRequestIgnoresModel<J>(message: Option<string>, complete1: string -> Option<string>,
                                    complete2: string -> Option<string>, parse: string -> Option<J>)
    requires IsEmptyRequest(message)
    ensures HandleChat(message, complete1, parse) == HandleChat(message, complete2, parse) == EmptyText
  {
  }

  /** Every other message -- the empty string included -- is answered from the model's reply:
      two models that agree on this message give the same response. */
  lemma OtherRequestsConsultModel<J>(message: Option<string>, complete1: string -> Option<string>,
                                     complete2: string -> Option<string>, parse: string -> Option<J>)
    requires !IsEmptyRequest(message)
    ensures HandleChat(message, complete1, parse).EmptyText? == false
    ensures complete1(message.value) == complete2(message.value) ==>
              HandleChat(message, complete1, parse) == HandleChat(message, complete2, parse)
  {
  }

  /** The empty string is not nullish, so `??` keeps it and it goes to the model. */
  lemma EmptyStringIsForwarded<J>(complete: string -> Option<string>, parse: string -> Option<J>)
    ensures !IsEmptyRequest(Some(""))
    ensures HandleChat(Some(""), complete, parse) != EmptyText
  {
  }

  /** A reply without content is parsed as "{}". */
  lemma MissingContentParsesEmptyObject<J>(message: string, complete: string -> Option<string>,
                                           parse: string -> Option<J>)
    requires message != EMPTY && complete(message).None?
    ensures HandleChat(Some(message), complete, parse) ==
              match parse(NO_CONTENT) case Some(v) => Parsed(v) case None => ServerError
  {
  }
}
