/** `POST /generate/text`: generate a draft for a non-empty topic. */
module GenerateRoute {
  import opened Wrappers
  import opened JsValues
  import opened UserModel
  import opened Http
  import opened AuthGates
  import opened AiService

  const TopicRequired := "Topic is required"
  const GenerationFailed := "Generation failed"

  datatype GenerateRequest = GenerateRequest(topic: Scalar, language: Scalar, contentType: Scalar)

  /** The handler behind `requireUser` (the rate limiter is not part of this model). */
  function HandleGenerate(users: map<string, User>, header: Option<string>, req: GenerateRequest): (r: Response)
    ensures RequireUser(users, header).Deny? ==> r == RequireUser(users, header).response
    ensures RequireUser(users, header).Admit? ==>
      && (!Truthy(req.topic) ==> r == Fail(400, TopicRequired))
      && (Truthy(req.topic) && req.topic.Num? ==> r == Fail(500, GenerationFailed))
      && (req.topic.Str? && req.topic.s != "" ==>
            r == Success(GeneratedBody(GenerateText(req.topic, req.language, req.contentType).value)))
  {
    match RequireUser(users, header)
    case Deny(response) => response
    case Admit(_) =>
      if !Truthy(req.topic) then Fail(400, TopicRequired)
      else
        match GenerateText(req.topic, req.language, req.contentType)
        case Err(_) => Fail(500, GenerationFailed)
        case Ok(text) => Success(GeneratedBody(text))
  }

  /**
   * A topic of white space only passes the emptiness check and is answered
   * with the default topic in place of the given one.
   */
  lemma BlankTopicGetsDefault(users: map<string, User>, header: Option<string>, topic: string,
                              language: Scalar, contentType: Scalar)
    requires RequireUser(users, header).Admit?
    requires topic != "" && AllSpace(topic)
    ensures var r := HandleGenerate(users, header, GenerateRequest(Str(topic), language, contentType));
      r.status == 200 && r.body.generatedText == Header(language, contentType) + DefaultTopic + "\n\n" + Advice
  {
    var x := GeneratedFrom(topic, language, contentType);
  }
}
