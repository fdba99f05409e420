/**
 * JSON values as the server receives them from the browser and from the
 * completion provider, and as it stores them in the `messages` column.
 */
module Json {
  import opened Wrappers

  /** A JSON value. Numbers keep their literal text, so no floating point is involved. */
  datatype Value =
    | Null
    | Bool(b: bool)
    | Number(literal: string)
    | Str(s: string)
    | Array(items: seq<Value>)
    | Object(fields: map<string, Value>)

  /** The message object of an assistant turn. */
  function AssistantMessage(text: string): Value {
    Object(map["content" := Str(text), "role" := Str("assistant")])
  }

  /** A completion-shaped envelope with one choice carrying `message`. */
  function SingleChoice(message: Value): Value {
    Object(map["choices" := Array([Object(map["message" := message])])])
  }

  /**
   * `response['choices'][0]['message']`: the message of the first choice.
   * Every shape on which Python raises (KeyError, IndexError, TypeError)
   * gives None.
   */
  function FirstChoiceMessage(response: Value): (r: Option<Value>)
    ensures r.Some? <==>
      && response.Object? && "choices" in response.fields
      && response.fields["choices"].Array? && |response.fields["choices"].items| > 0
      && response.fields["choices"].items[0].Object?
      && "message" in response.fields["choices"].items[0].fields
    ensures r.Some? ==> r.value == response.fields["choices"].items[0].fields["message"]
  {
    match response
    case Object(top) =>
      if "choices" !in top then None
      else (
        match top["choices"]
        case Array(choices) =>
          if |choices| == 0 then None
          else (
            match choices[0]
            case Object(choice) => if "message" in choice then Some(choice["message"]) else None
            case _ => None)
        case _ => None)
    case _ => None
  }

  /** Reading the first choice back out of a one-choice envelope gives the message put in. */
  lemma FirstChoiceOfSingleChoice(message: Value)
    ensures FirstChoiceMessage(SingleChoice(message)) == Some(message)
  {
  }
}
