/**
 * `ask_llm`: the guards, the credential lookup, the one service call and
 * the mapping of its outcome to the returned text.
 *
 * The secrets store and the environment are two optional strings; the chat
 * model behind the prompt chain is a total function from the request it is
 * given to an outcome. The answer records, besides its text, the requests the
 * call made, so that "no call" and "one call with this request" can be said.
 */
module Ask {
  import opened Wrappers
  import opened Experts

  /** Fixed replies; their wording is treated as opaque. */
  const EmptyInputMessage: string := "入力テキストが空です。質問を入力してください。"
  const MissingKeyMessage: string :=
    "OpenAI APIキーが設定されていません。"
    + "secrets または環境変数に OPENAI_API_KEY を設定してください。"
  const ErrorPrefix: string := "エラーが発生しました: "

  /** What the chain is invoked with: the resolved system prompt, the user
      text bound to the template's question slot, and the credential. */
  datatype Request = Request(systemPrompt: string, question: string, apiKey: string)

  /** What the chain's `invoke` does: returns text, or raises an exception
      whose string form is `desc`. */
  datatype Outcome = Success(text: string) | Failure(desc: string)

  /** The returned string and the service requests made on the way. */
  datatype Answer = Answer(text: string, calls: seq<Request>)

  /** The credential: the secrets-store entry when it exists (blank or not),
      otherwise the environment variable, otherwise the empty string. */
  function ResolveApiKey(secret: Option<string>, env: Option<string>): (key: string)
    ensures secret.Some? ==> key == secret.value
    ensures secret.None? && env.Some? ==> key == env.value
    ensures secret.None? && env.None? ==> key == ""
  {
    match secret
    case Some(v) => v
    case None => match env case Some(e) => e case None => ""
  }

  /** The answer to `userText` under `expertChoice`. */
  function AskLlm(userText: string, expertChoice: string,
                  secret: Option<string>, env: Option<string>,
                  service: Request -> Outcome): (a: Answer)
    // the empty-text guard comes first, whatever the credential or choice
    ensures userText == "" ==> a == Answer(EmptyInputMessage, [])
    // then the credential guard
    ensures userText != "" && ResolveApiKey(secret, env) == "" ==> a == Answer(MissingKeyMessage, [])
    // the service is consulted exactly when both guards pass, and then once
    ensures a.calls != [] <==> userText != "" && ResolveApiKey(secret, env) != ""
    ensures |a.calls| <= 1
    ensures a.calls != [] ==>
      a.calls[0] == Request(SystemPrompt(expertChoice), userText, ResolveApiKey(secret, env))
    // a successful outcome is returned verbatim, a failure behind the prefix
    ensures a.calls != [] && service(a.calls[0]).Success? ==> a.text == service(a.calls[0]).text
    ensures a.calls != [] && service(a.calls[0]).Failure? ==>
      a.text == ErrorPrefix + service(a.calls[0]).desc
  {
    if userText == "" then
      Answer(EmptyInputMessage, [])
    else
      var system := SystemPrompt(expertChoice);
      var apiKey := ResolveApiKey(secret, env);
      if apiKey == "" then
        Answer(MissingKeyMessage, [])
      else
        var request := Request(system, userText, apiKey);
        match service(request)
        case Success(result) => Answer(result, [request])
        case Failure(e) => Answer(ErrorPrefix + e, [request])
  }

  /** When either guard fires the service is not consulted: the answer is
      the same whatever the service would have returned. */
  lemma GuardedAnswerIgnoresService(userText: string, expertChoice: string,
                                    secret: Option<string>, env: Option<string>,
                                    s1: Request -> Outcome, s2: Request -> Outcome)
    requires userText == "" || ResolveApiKey(secret, env) == ""
    ensures AskLlm(userText, expertChoice, secret, env, s1) == AskLlm(userText, expertChoice, secret, env, s2)
    ensures AskLlm(userText, expertChoice, secret, env, s1).calls == []
  {
  }

  /** Past both guards the service is consulted at one point only: two
      services that agree on the request built from the inputs give the
      same answer. */
  lemma ServiceSeenThroughOneRequest(userText: string, expertChoice: string,
                                     secret: Option<string>, env: Option<string>,
                                     s1: Request -> Outcome, s2: Request -> Outcome)
    requires s1(Request(SystemPrompt(expertChoice), userText, ResolveApiKey(secret, env)))
          == s2(Request(SystemPrompt(expertChoice), userText, ResolveApiKey(secret, env)))
    ensures AskLlm(userText, expertChoice, secret, env, s1) == AskLlm(userText, expertChoice, secret, env, s2)
  {
  }

  /** Empty text decides the answer alone: choice, credential sources and
      service make no difference. */
  lemma EmptyTextDecides(c1: string, c2: string,
                         secret1: Option<string>, secret2: Option<string>,
                         env1: Option<string>, env2: Option<string>,
                         s1: Request -> Outcome, s2: Request -> Outcome)
    ensures AskLlm("", c1, secret1, env1, s1) == AskLlm("", c2, secret2, env2, s2)
    ensures AskLlm("", c1, secret1, env1, s1).text == EmptyInputMessage
  {
  }

  /** A blank secrets entry shadows a non-blank environment variable, so a
      non-empty question is refused with the missing-key reply. */
  lemma BlankSecretShadowsEnvironment(userText: string, expertChoice: string,
                                      env: Option<string>, service: Request -> Outcome)
    requires userText != ""
    ensures AskLlm(userText, expertChoice, Some(""), env, service) == Answer(MissingKeyMessage, [])
  {
  }

  /** Only the exact empty string trips the first guard: text made of
      whitespace alone is sent to the service once a credential exists. */
  lemma WhitespaceQuestionIsSent(userText: string, expertChoice: string,
                                 secret: Option<string>, env: Option<string>,
                                 service: Request -> Outcome)
    requires userText != "" && PyStr.AllSpace(userText)
    requires ResolveApiKey(secret, env) != ""
    ensures AskLlm(userText, expertChoice, secret, env, service).calls
         == [Request(SystemPrompt(expertChoice), userText, ResolveApiKey(secret, env))]
  {
  }

  /** The two guard replies differ from each other and from every error
      reply, so the caller can tell each path apart from the text alone
      (a service whose own text imitates them aside). */
  lemma GuardRepliesDistinct(desc: string)
    ensures EmptyInputMessage != MissingKeyMessage
    ensures EmptyInputMessage != ErrorPrefix + desc
    ensures MissingKeyMessage != ErrorPrefix + desc
  {
    assert (ErrorPrefix + desc)[0] == ErrorPrefix[0] == 'エ';
    assert EmptyInputMessage[0] == '入';
    assert MissingKeyMessage[0] == 'O';
  }

  /** The sample requests: empty text, no credential, a service answering
      "ok", and a service failing with "timeout". */
  lemma SampleRequests(service: Request -> Outcome)
    ensures AskLlm("", "A", Some("key123"), None, service).text == EmptyInputMessage
    ensures AskLlm("valid question", "A", None, None, service).text == MissingKeyMessage
    ensures (forall r :: service(r) == Success("ok")) ==>
      AskLlm("valid question", "A", Some("key123"), None, service).text == "ok"
    ensures (forall r :: service(r) == Failure("timeout")) ==>
      AskLlm("valid question", "A", Some("key123"), None, service).text == ErrorPrefix + "timeout"
  {
  }
}
