/** Successive form submissions handled one after another. The handler keeps
    no state between requests and never retries, so serving a sequence of
    submissions is handling each one on its own: the responses line up with
    the submissions, and the provider sees exactly the emails of the
    admissible submissions, once each, in order. */
module Serving {
  import opened Wrappers
  import opened Loops
  import opened Route

  /** The responses to a sequence of submissions and every provider call
      they caused, in order. */
  datatype Served = Served(responses: seq<Response>, calls: seq<string>)

  /** Handles the submissions in order, each by one independent invocation
      of the form handler. */
  function Serve(subs: seq<Submission>, createContact: CreateContact): (r: Served)
    decreases |subs|
    ensures |r.responses| == |subs|
    ensures forall i :: 0 <= i < |subs| ==>
      r.responses[i] == Action(subs[i], createContact).response
    ensures |r.calls| <= |subs|
    ensures forall e :: e in r.calls ==> e != ""
  {
    if |subs| == 0 then Served([], [])
    else
      var first := Action(subs[0], createContact);
      var rest := Serve(subs[1..], createContact);
      Served([first.response] + rest.responses, first.calls + rest.calls)
  }

  /** Reference definition: the emails of the admissible submissions, in
      submission order. */
  function AdmittedEmails(subs: seq<Submission>): seq<string>
    decreases |subs|
  {
    if |subs| == 0 then []
    else if Admissible(subs[0]) then [subs[0].email.value] + AdmittedEmails(subs[1..])
    else AdmittedEmails(subs[1..])
  }

  /** How many responses report success. */
  function CountSuccesses(rs: seq<Response>): nat
    decreases |rs|
  {
    if |rs| == 0 then 0
    else (if rs[0].success then 1 else 0) + CountSuccesses(rs[1..])
  }

  /** How many of the given provider calls the provider accepted. */
  function CountAccepted(calls: seq<string>, createContact: CreateContact): nat
    decreases |calls|
  {
    if |calls| == 0 then 0
    else (if createContact(calls[0]).success then 1 else 0) + CountAccepted(calls[1..], createContact)
  }

  /** The provider is called exactly once per admissible submission, with its
      email, in order, and never for a rejected one. */
  lemma {:induction false} CallsAreAdmittedEmails(subs: seq<Submission>, createContact: CreateContact)
    decreases |subs|
    ensures Serve(subs, createContact).calls == AdmittedEmails(subs)
  {
    if |subs| > 0 {
      CallsAreAdmittedEmails(subs[1..], createContact);
    }
  }

  /** Serve distributes over concatenation: serving two batches back to back
      gives the first batch's responses and calls followed by the second's.
      (That no state is shared is assumed by making Action a pure function.) */
  lemma ServeAppend(a: seq<Submission>, b: seq<Submission>, createContact: CreateContact)
    ensures Serve(a + b, createContact)
         == Served(Serve(a, createContact).responses + Serve(b, createContact).responses,
                   Serve(a, createContact).calls + Serve(b, createContact).calls)
  {
    ResponsesAppend(a, b, createContact);
    CallsAppend(a, b, createContact);
  }

  /** The responses half of ServeAppend. */
  lemma {:induction false} ResponsesAppend(a: seq<Submission>, b: seq<Submission>, createContact: CreateContact)
    decreases |a|
    ensures Serve(a + b, createContact).responses
         == Serve(a, createContact).responses + Serve(b, createContact).responses
  {
    if |a| == 0 {
      assert a + b == b;
    } else {
      assert (a + b)[0] == a[0];
      assert (a + b)[1..] == a[1..] + b;
      ResponsesAppend(a[1..], b, createContact);
      var r := Action(a[0], createContact).response;
      var ra := Serve(a[1..], createContact).responses;
      var rb := Serve(b, createContact).responses;
      assert [r] + (ra + rb) == ([r] + ra) + rb;
    }
  }

  /** The calls half of ServeAppend. */
  lemma {:induction false} CallsAppend(a: seq<Submission>, b: seq<Submission>, createContact: CreateContact)
    decreases |a|
    ensures Serve(a + b, createContact).calls
         == Serve(a, createContact).calls + Serve(b, createContact).calls
  {
    if |a| == 0 {
      assert a + b == b;
    } else {
      assert (a + b)[0] == a[0];
      assert (a + b)[1..] == a[1..] + b;
      CallsAppend(a[1..], b, createContact);
      var c := Action(a[0], createContact).calls;
      var ca := Serve(a[1..], createContact).calls;
      var cb := Serve(b, createContact).calls;
      assert c + (ca + cb) == (c + ca) + cb;
    }
  }

  /** Every successful response is matched by one provider call the provider
      accepted, and nothing else succeeds. */
  lemma {:induction false} SuccessesAreAcceptedCalls(subs: seq<Submission>, createContact: CreateContact)
    decreases |subs|
    ensures CountSuccesses(Serve(subs, createContact).responses)
         == CountAccepted(Serve(subs, createContact).calls, createContact)
  {
    if |subs| > 0 {
      var first := Action(subs[0], createContact);
      var rest := Serve(subs[1..], createContact);
      SuccessesAreAcceptedCalls(subs[1..], createContact);
      assert ([first.response] + rest.responses)[1..] == rest.responses;
      if |first.calls| == 1 {
        assert (first.calls + rest.calls)[1..] == rest.calls;
      } else {
        assert first.calls + rest.calls == rest.calls;
      }
    }
  }
}
