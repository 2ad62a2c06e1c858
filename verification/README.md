# Waitlist signup handler

A Dafny model of the server-side form handler of the then.sh landing page:
the `action` of the index route, which takes a waitlist signup (an `email`
field and a hidden honeypot field `is_bot`), rejects bots, rejects a missing
email, and otherwise creates a contact with the mailing-list provider
(Loops), turning its answer into a JSON body `{success, error?}` and an HTTP
status.

The model is functional:

- `wrappers.dfy` — `Option`, for form fields that may be missing and for the
  provider's optional message.
- `loops.dfy` — the provider's `createContact` result `{success, message?}`
  and the provider itself as an oracle `string -> ContactResult`.
- `route.dfy` — `Route.Action`, the handler as a pure function returning the
  response and the trace of provider calls (the emails passed to
  `createContact`, in order). It also holds the handler's error taxonomy
  (bot rejected, missing email, provider error, accepted): the handler's
  decision tree with the rendering of each verdict into a response split
  out, proved to agree with the handler.
- `serving.dfy` — a sequence of submissions served one after another. The
  handler keeps no state between requests and never retries; this module
  states that as properties of a whole run: one response per submission, equal
  to what that submission gets alone, and one provider call per admissible
  submission, with its email, in order. The run itself is a modelling
  device: the source handles one request per invocation, and the model
  assumes (by making the handler a pure function) that no state is shared
  between invocations.

The form fields are model inputs. A field the form does not contain is
`None`. The handler's `!email` test rejects both a missing field and the empty
string. An absent provider message becomes a body without the `error` key,
which is modelled as `error: None`.

The handler compares `is_bot` with the exact string `"true"`. Any other value
is treated like a missing honeypot, including `"TRUE"`, `"false"` and
arbitrary text. The page's hidden `is_bot` input sends `"false"`
(app/routes/_index.tsx:133-137), but the handler accepts any value, and the
model follows the handler.

## Model

| member | source | states |
|---|---|---|
| Route.Action | app/routes/_index.tsx:72-91 | A bot (honeypot exactly "true") gets `{false, "No bots allowed"}`/400 with no provider call, whatever the email. A non-bot with a missing or empty email gets `{false, "Email is required"}`/400 with no call. The provider is called at most once, and exactly when both checks pass, with the submitted email unchanged. `success` holds iff the provider was called and accepted, and then there is no error and the status is 200. A provider refusal gives a 500 carrying the provider's message as is, absent or not. Every failure is a 400 or a 500. |
| Route.Classify | app/routes/_index.tsx:77-88 | The error taxonomy in check order: bot rejected iff the honeypot is exactly "true"; missing email iff not a bot and the email is absent or empty; accepted iff both checks pass and the provider accepts that email; a provider error carries the provider's message for that email. |
| Route.Render | app/routes/_index.tsx:78-90 | Each verdict's response: acceptance is `{true}` with no error and status 200; a bot rejection is `{false, "No bots allowed"}`/400; a missing email is `{false, "Email is required"}`/400; a provider error is `{false, <provider message>}`/500. Reading a rendered response back gives the same verdict, so no two verdicts share a response. |
| Route.ActionFollowsTaxonomy | app/routes/_index.tsx:72-91 | The handler's response is the rendering of the taxonomy's verdict for that submission and provider, and the verdict can be read back from the response. |
| Route.OnlyExactTrueIsBot | app/routes/_index.tsx:77 | Any honeypot value other than exactly "true" yields the same outcome as an absent honeypot and is never classified as a bot rejection. |
| Route.Scenarios | app/routes/_index.tsx:72-91 | Four worked examples of `Action`. (1) A valid email with provider success gives `{true}`/200 and one call. (2) An empty email gives `{false, "Email is required"}`/400 and no call. (3) A bot gives `{false, "No bots allowed"}`/400 and no call. (4) A provider refusal "duplicate" gives `{false, "duplicate"}`/500. |
| Serving.Serve | app/routes/_index.tsx:72-91 | Serving submissions in sequence gives one response per submission, each equal to the response that submission gets on its own. It makes no more provider calls than there are submissions, and never calls with an empty email. |
| Serving.CallsAreAdmittedEmails | app/routes/_index.tsx:77-85 | Over a run, the provider calls are exactly the emails of the submissions that pass both checks, once each, in submission order. |
| Serving.ServeAppend | app/routes/_index.tsx:72-91 | `Serve` distributes over concatenation: serving two runs back to back gives the first run's responses and calls followed by the second's. Statelessness itself is assumed by the model, not proved here. |
| Serving.ResponsesAppend | app/routes/_index.tsx:72-91 | The responses to a concatenated run are the responses to the first part followed by those to the second. |
| Serving.CallsAppend | app/routes/_index.tsx:85 | The provider calls of a concatenated run are those of the first part followed by those of the second. |
| Serving.SuccessesAreAcceptedCalls | app/routes/_index.tsx:85-90 | Over a run, the number of successful responses equals the number of provider calls the provider accepted. |

## Left out

- Form parsing (`request.formData()`, `body.get`, app/routes/_index.tsx:73-75) and JSON serialisation through `json(...)`: framework I/O. The parsed fields are inputs to the model.
- Form entries that are `File` objects rather than strings, and the `email.toString()` conversion (app/routes/_index.tsx:85): the model's fields are strings only.
- The Loops client (`~/lib/loops`) is not part of this model. It makes a network call to a third-party service and is represented only by its result `{success, message?}`, through a function parameter. A thrown exception or a timeout from that call is not modelled.
- Serving.Serve: treats the provider as a fixed function of the email for a whole run. A real provider may answer differently for the same email at different times, for example because of its own upsert state.
- `async`/`await` and concurrent requests: the handler shares no state, so one invocation is modelled as one synchronous call.
- app/lib/constants.ts (reading the API key from the environment and failing at load time) is configuration I/O.
- `meta`, `DEPLOYMENT_STEPS`, the `Index` page component (including how it reads `success` back from the response) and app/components/Alert.tsx: presentational markup with no behaviour to state.
