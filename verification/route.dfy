/** The waitlist signup form handler of the landing page (`action` in
    app/routes/_index.tsx), as a pure function of the parsed form fields and
    the mailing-list provider's answer. */
module Route {
  import opened Wrappers
  import opened Loops

  /** HTTP statuses the handler produces. */
  const StatusOk: nat := 200
  const StatusBadRequest: nat := 400
  const StatusServerError: nat := 500

  /** The fixed error messages of the two local checks. */
  const NoBotsAllowed: string := "No bots allowed"
  const EmailRequired: string := "Email is required"

  /** The two form fields the handler reads: `email` and the hidden honeypot
      `is_bot`; either may be missing from the submitted form. */
  datatype Submission = Submission(email: Option<string>, isBot: Option<string>)

  /** The JSON body `{success, error?}` together with the HTTP status. An
      `error` of None is a body without the `error` key. */
  datatype Response = Response(success: bool, error: Option<string>, status: nat)

  /** What one invocation produces: the response, and the emails passed to
      the provider's `createContact`, in call order. */
  datatype Outcome = Outcome(response: Response, calls: seq<string>)

  /** The honeypot was filled in with exactly the string "true". */
  predicate FlaggedAsBot(s: Submission) {
    s.isBot == Some("true")
  }

  /** The email field is present and not the empty string (a truthy value). */
  predicate HasEmail(s: Submission) {
    s.email.Some? && s.email.value != ""
  }

  /** The submission passes both local checks and reaches the provider. */
  predicate Admissible(s: Submission) {
    !FlaggedAsBot(s) && HasEmail(s)
  }

  /** Handles one form submission. The bot check comes first, then the email
      check; only a submission passing both reaches the provider, exactly
      once and with the email unchanged, and the provider's answer decides
      between a 500 carrying its message and a plain success. */
  function Action(s: Submission, createContact: CreateContact): (o: Outcome)
    // A bot is turned away with a fixed 400 and no call, whatever the email.
    ensures FlaggedAsBot(s) ==>
      o == Outcome(Response(false, Some(NoBotsAllowed), StatusBadRequest), [])
    // A missing or empty email from a non-bot gets the other fixed 400.
    ensures !FlaggedAsBot(s) && !HasEmail(s) ==>
      o == Outcome(Response(false, Some(EmailRequired), StatusBadRequest), [])
    // The provider is called at most once, and exactly when both checks pass,
    // with the submitted email unchanged.
    ensures |o.calls| <= 1
    ensures |o.calls| == 1 <==> Admissible(s)
    ensures |o.calls| == 1 ==> s.email == Some(o.calls[0])
    // Success means: the provider was called and said yes.
    ensures o.response.success <==> |o.calls| == 1 && createContact(o.calls[0]).success
    ensures o.response.success ==> o.response.error == None && o.response.status == StatusOk
    // A provider refusal is a 500 carrying the provider's message as is.
    ensures |o.calls| == 1 && !createContact(o.calls[0]).success ==>
      o.response == Response(false, createContact(o.calls[0]).message, StatusServerError)
    // Every failure is a 400 or a 500.
    ensures !o.response.success ==>
      o.response.status == StatusBadRequest || o.response.status == StatusServerError
  {
    if s.isBot == Some("true") then
      Outcome(Response(false, Some(NoBotsAllowed), StatusBadRequest), [])
    else if s.email.None? || s.email.value == "" then
      Outcome(Response(false, Some(EmailRequired), StatusBadRequest), [])
    else
      var email := s.email.value;
      var reply := createContact(email);
      if !reply.success then
        Outcome(Response(false, reply.message, StatusServerError), [email])
      else
        Outcome(Response(true, None, StatusOk), [email])
  }

  /** The handler's outcomes as an error taxonomy: a bot rejection, a missing
      email, a provider error with the provider's message, or acceptance. */
  datatype Verdict = Accepted | BotRejected | MissingEmail | ProviderError(message: Option<string>)

  /** The handler's decision tree as a verdict, in the order of the checks:
      bot first, then email presence, then the provider's answer. */
  function Classify(s: Submission, createContact: CreateContact): (v: Verdict)
    ensures v.BotRejected? <==> FlaggedAsBot(s)
    ensures v.MissingEmail? <==> !FlaggedAsBot(s) && !HasEmail(s)
    ensures v.Accepted? <==> Admissible(s) && createContact(s.email.value).success
    ensures v.ProviderError? ==>
      Admissible(s) && v.message == createContact(s.email.value).message
  {
    if FlaggedAsBot(s) then BotRejected
    else if !HasEmail(s) then MissingEmail
    else if createContact(s.email.value).success then Accepted
    else ProviderError(createContact(s.email.value).message)
  }

  /** The left inverse of Render, used to state that different verdicts give
      different responses: the status tells the provider error apart, the
      message tells the two 400s apart. */
  function Interpret(r: Response): Verdict {
    if r.success then Accepted
    else if r.status == StatusServerError then ProviderError(r.error)
    else if r.error == Some(NoBotsAllowed) then BotRejected
    else MissingEmail
  }

  /** The response the handler sends for each verdict. Distinct verdicts
      give distinct responses: the caller can always recover the verdict. */
  function Render(v: Verdict): (r: Response)
    ensures Interpret(r) == v
    ensures r.success <==> v.Accepted?
    ensures r.status == StatusOk <==> v.Accepted?
    ensures v.Accepted? ==> r.error == None
    ensures v.BotRejected? ==> r == Response(false, Some(NoBotsAllowed), StatusBadRequest)
    ensures v.MissingEmail? ==> r == Response(false, Some(EmailRequired), StatusBadRequest)
    ensures v.ProviderError? ==> r.error == v.message && r.status == StatusServerError
  {
    match v
    case Accepted => Response(true, None, StatusOk)
    case BotRejected => Response(false, Some(NoBotsAllowed), StatusBadRequest)
    case MissingEmail => Response(false, Some(EmailRequired), StatusBadRequest)
    case ProviderError(m) => Response(false, m, StatusServerError)
  }

  /** The handler's response is exactly the rendering of the verdict the
      error taxonomy assigns, so the response also determines the verdict. */
  lemma ActionFollowsTaxonomy(s: Submission, createContact: CreateContact)
    ensures Action(s, createContact).response == Render(Classify(s, createContact))
    ensures Interpret(Action(s, createContact).response) == Classify(s, createContact)
  {
  }

  /** Only the exact string "true" triggers the bot rejection; every other
      honeypot value, or none, leads to the same outcome as an absent one. */
  lemma OnlyExactTrueIsBot(email: Option<string>, isBot: Option<string>, createContact: CreateContact)
    requires isBot != Some("true")
    ensures Action(Submission(email, isBot), createContact)
         == Action(Submission(email, None), createContact)
    ensures Classify(Submission(email, isBot), createContact) != BotRejected
  {
  }

  /** Four worked examples of Action. */
  lemma Scenarios()
    ensures var ok := (e: string) => ContactResult(true, None);
      Action(Submission(Some("a@example.com"), Some("false")), ok)
        == Outcome(Response(true, None, 200), ["a@example.com"])
    ensures var ok := (e: string) => ContactResult(true, None);
      Action(Submission(Some(""), Some("false")), ok)
        == Outcome(Response(false, Some("Email is required"), 400), [])
    ensures var ok := (e: string) => ContactResult(true, None);
      Action(Submission(Some("a@example.com"), Some("true")), ok)
        == Outcome(Response(false, Some("No bots allowed"), 400), [])
    ensures var dup := (e: string) => ContactResult(false, Some("duplicate"));
      Action(Submission(Some("a@example.com"), Some("false")), dup)
        == Outcome(Response(false, Some("duplicate"), 500), ["a@example.com"])
  {
  }
}
