/**
 * The Truth Tortoise chat widget's conversation state
 * (components/features/ai/TruthTortoise.tsx).
 *
 * The widget holds a transcript, a draft, a busy flag and a visibility flag.
 * `sendMessage` runs in two steps around one network round trip: `Begin`
 * validates the draft, records the user's message and composes the outbound
 * prompt; `Complete` records exactly one assistant message for whatever the
 * round trip produced and clears the busy flag.  The round trip itself is an
 * input of type `Outcome`.
 */
module Tortoise {
  import opened Wrappers
  import AiRoute

  datatype Role = User | Assistant

  /** One transcript entry (the clock-derived `id` is not modelled). */
  datatype Message = Message(role: Role, content: string)

  /** Shown when the endpoint's body carries no usable `text`. */
  const Placeholder: string := "No response yet."

  /** Shown when the request or the body parsing throws. */
  const Apology: string := "Something went wrong. Try again."

  const ContextLabel: string := "Context: "
  const QuestionLabel: string := "\nUser question: "

  /**
   * What awaiting the endpoint produced: a parsed JSON body whose `text`
   * field may be missing, or an exception from `fetch` or `res.json()`.
   */
  datatype Outcome = Body(text: Option<string>) | Threw

  // ---------------------------------------------------------------------
  // Trimming the draft

  /** The characters `trim` removes (a fixed subset of JavaScript's white space). */
  predicate IsSpace(c: char)
  {
    c == ' ' || c == '\t' || c == '\n' || c == '\r' ||
    c == '\U{000B}' || c == '\U{000C}' || c == '\U{00A0}' || c == '\U{FEFF}'
  }

  predicate AllSpace(s: string)
  {
    forall i :: 0 <= i < |s| ==> IsSpace(s[i])
  }

  /** `s` without its leading white space: a suffix of `s` that starts with a non-space, if any. */
  function TrimStart(s: string): (r: string)
    ensures |r| <= |s| && r == s[|s| - |r|..]
    ensures r == [] || !IsSpace(r[0])
    ensures AllSpace(s[..|s| - |r|])
  {
    if |s| > 0 && IsSpace(s[0]) then
      var r := TrimStart(s[1..]);
      assert s[..|s| - |r|] == [s[0]] + s[1..][..|s| - 1 - |r|];
      r
    else s
  }

  /** `s` without its trailing white space: a prefix of `s` that ends with a non-space, if any. */
  function TrimEnd(s: string): (r: string)
    ensures |r| <= |s| && r == s[..|r|]
    ensures r == [] || !IsSpace(r[|r| - 1])
    ensures AllSpace(s[|r|..])
  {
    if |s| > 0 && IsSpace(s[|s| - 1]) then
      var r := TrimEnd(s[..|s| - 1]);
      assert s[|r|..] == s[..|s| - 1][|r|..] + [s[|s| - 1]];
      r
    else s
  }

  /** `r` sits at offset `k` of `s` with nothing but white space around it. */
  predicate SurroundedBySpace(s: string, k: nat, r: string)
    requires k + |r| <= |s|
  {
    AllSpace(s[..k]) && s[k..k + |r|] == r && AllSpace(s[k + |r|..])
  }

  /** JavaScript's `String.prototype.trim`. */
  function Trim(s: string): (r: string)
    ensures |r| <= |s|
    ensures r == [] || (!IsSpace(r[0]) && !IsSpace(r[|r| - 1]))
    ensures r == [] <==> AllSpace(s)
  {
    var t := TrimStart(s);
    var r := TrimEnd(t);
    assert r == [] ==> s == s[..|s| - |t|] + t[|r|..];
    assert r != [] ==> r[0] == t[0];
    r
  }

  /** What trimming keeps is a slice of the draft with nothing but white space on either side. */
  lemma TrimSurrounded(s: string)
    ensures exists k: nat :: k + |Trim(s)| <= |s| && SurroundedBySpace(s, k, Trim(s))
  {
    var t := TrimStart(s);
    var r := TrimEnd(t);
    var k := |s| - |t|;
    assert t == s[k..];
    assert r == t[..|r|];
    assert s[k..k + |r|] == t[..|r|];
    assert s[k + |r|..] == t[|r|..];
    assert SurroundedBySpace(s, k, r);
    assert Trim(s) == r;
  }

  /** Removing leading white space from `ws + t` gives `t` when `t` does not start with white space. */
  lemma {:induction false} TrimStartSkips(ws: string, t: string)
    requires AllSpace(ws)
    requires t == [] || !IsSpace(t[0])
    ensures TrimStart(ws + t) == t
  {
    if ws != [] {
      assert (ws + t)[1..] == ws[1..] + t;
      TrimStartSkips(ws[1..], t);
    }
  }

  /** Removing trailing white space from `t + ws` gives `t` when `t` does not end with white space. */
  lemma {:induction false} TrimEndSkips(t: string, ws: string)
    requires AllSpace(ws)
    requires t == [] || !IsSpace(t[|t| - 1])
    ensures TrimEnd(t + ws) == t
  {
    if ws != [] {
      var n := |t + ws|;
      assert (t + ws)[n - 1] == ws[|ws| - 1];
      assert (t + ws)[..n - 1] == t + ws[..|ws| - 1];
      TrimEndSkips(t, ws[..|ws| - 1]);
    }
  }

  /** Trimming recovers the text between any run of leading and trailing white space. */
  lemma TrimPadded(lead: string, t: string, trail: string)
    requires AllSpace(lead) && AllSpace(trail)
    requires t != [] && !IsSpace(t[0]) && !IsSpace(t[|t| - 1])
    ensures Trim(lead + t + trail) == t
  {
    var rest := t + trail;
    assert rest[0] == t[0];
    assert lead + t + trail == lead + rest;
    TrimStartSkips(lead, rest);
    TrimEndSkips(t, trail);
    assert Trim(lead + rest) == TrimEnd(TrimStart(lead + rest));
  }

  /** Trimming twice is trimming once. */
  lemma TrimIdempotent(s: string)
    ensures Trim(Trim(s)) == Trim(s)
  {
    var r := Trim(s);
    if r != [] {
      TrimPadded([], r, []);
      assert [] + r + [] == r;
    }
  }

  // ---------------------------------------------------------------------
  // Composing the prompt and reading the reply

  /**
   * The outbound prompt.  A present, non-empty `context` (JavaScript
   * truthiness) is labelled and put first; otherwise the prompt is the
   * trimmed draft itself.
   */
  function ComposePrompt(context: Option<string>, trimmed: string): (r: string)
    ensures context.Some? && context.value != "" ==>
      var c := context.value;
      |r| == |ContextLabel| + |c| + |QuestionLabel| + |trimmed| &&
      r[..|ContextLabel|] == ContextLabel &&
      r[|ContextLabel|..|ContextLabel| + |c|] == c &&
      r[|ContextLabel| + |c|..|r| - |trimmed|] == QuestionLabel &&
      r[|r| - |trimmed|..] == trimmed
    ensures context.None? || context.value == "" ==> r == trimmed
  {
    if context.Some? && context.value != "" then
      ContextLabel + context.value + QuestionLabel + trimmed
    else
      trimmed
  }

  /**
   * The assistant's content for an outcome: `data.text || 'No response yet.'`
   * for a parsed body, the apology when anything threw.  Never empty.
   */
  function Reply(outcome: Outcome): (r: string)
    ensures r != ""
    ensures outcome.Threw? ==> r == Apology
    ensures outcome.Body? && outcome.text.Some? && outcome.text.value != "" ==> r == outcome.text.value
    ensures outcome.Body? && (outcome.text.None? || outcome.text.value == "") ==> r == Placeholder
  {
    match outcome
    case Threw => Apology
    case Body(Some(t)) => if t != "" then t else Placeholder
    case Body(None) => Placeholder
  }

  /**
   * What the client's `res.json()` yields for each endpoint reply, read
   * through its `text` field.  The status is never looked at: an error body
   * simply has no `text`.
   */
  function ClientBody(response: AiRoute.Response): (o: Outcome)
    ensures o.Body?
    ensures o.text.Some? <==> response.Text?
    ensures response.Text? ==> o.text.value == response.text
  {
    match response
    case Text(t) => Body(Some(t))
    case Error(_, _) => Body(None)
  }

  /** An endpoint failure (any non-ok upstream status) is shown as the placeholder, not the apology. */
  lemma EndpointFailureShowsPlaceholder(up: AiRoute.Upstream)
    requires !up.ok
    ensures Reply(ClientBody(AiRoute.Handle(up))) == Placeholder
  {
  }

  /** An ok reply without text at `output[0].content[0]` is shown as the placeholder. */
  lemma MissingTextShowsPlaceholder(up: AiRoute.Upstream)
    requires up.ok
    requires AiRoute.ExtractText(up.output).None? || AiRoute.ExtractText(up.output) == Some("")
    ensures Reply(ClientBody(AiRoute.Handle(up))) == Placeholder
  {
  }

  /**
   * Whatever `Handle` returns, the apology only appears if the upstream text
   * is literally the apology.  (When the route itself throws, the widget's
   * `res.json()` throws too and the outcome is `Threw`.)
   */
  lemma EndpointNeverApologises(up: AiRoute.Upstream)
    requires AiRoute.ExtractText(up.output) != Some(Apology)
    ensures Reply(ClientBody(AiRoute.Handle(up))) != Apology
  {
  }

  /** Every transcript entry has non-empty content. */
  predicate NonEmptyContents(messages: seq<Message>)
  {
    forall i :: 0 <= i < |messages| ==> messages[i].content != ""
  }

  // ---------------------------------------------------------------------
  // The widget's state

  class TruthTortoise {
    /** The optional page context passed in as a prop. */
    const context: Option<string>
    var open: bool
    var input: string
    var messages: seq<Message>
    var loading: bool

    ghost predicate Valid()
      reads this
    {
      NonEmptyContents(messages)
    }

    /** The four `useState` initialisers. */
    constructor (context: Option<string>)
      ensures Valid()
      ensures this.context == context
      ensures !open && input == "" && messages == [] && !loading
    {
      this.context := context;
      open := false;
      input := "";
      messages := [];
      loading := false;
    }

    /** The text area's `onChange`: the draft becomes the typed text. */
    method SetInput(text: string)
      modifies this`input
      ensures input == text
      ensures open == old(open) && messages == old(messages) && loading == old(loading)
    {
      input := text;
    }

    /** The launcher button: flips visibility and touches nothing else. */
    method Toggle()
      modifies this`open
      ensures open == !old(open)
      ensures input == old(input) && messages == old(messages) && loading == old(loading)
    {
      open := !open;
    }

    /** The panel's Close button. */
    method Close()
      modifies this`open
      ensures !open
      ensures input == old(input) && messages == old(messages) && loading == old(loading)
    {
      open := false;
    }

    /**
     * The first half of `sendMessage`, up to the request.  It is rejected
     * (`None`, nothing changes) when the trimmed draft is empty or a request
     * is in flight.  Otherwise it appends the trimmed draft as a user
     * message, clears the draft, marks a request in flight and returns the
     * prompt to send.
     */
    method Begin() returns (prompt: Option<string>)
      requires Valid()
      modifies this`messages, this`input, this`loading
      ensures Valid()
      ensures open == old(open)
      ensures prompt.None? <==> Trim(old(input)) == "" || old(loading)
      ensures prompt.None? ==>
        messages == old(messages) && input == old(input) && loading == old(loading)
      ensures prompt.Some? ==>
        messages == old(messages) + [Message(User, Trim(old(input)))] &&
        input == "" && loading &&
        prompt.value == ComposePrompt(context, Trim(old(input)))
    {
      var trimmed := Trim(input);
      if trimmed == "" || loading {
        return None;
      }
      messages := messages + [Message(User, trimmed)];
      input := "";
      loading := true;
      prompt := Some(ComposePrompt(context, trimmed));
    }

    /**
     * The second half of `sendMessage`: exactly one assistant message for
     * the outcome, then `loading` is cleared whatever happened.
     */
    method Complete(outcome: Outcome)
      requires Valid()
      modifies this`messages, this`loading
      ensures Valid()
      ensures messages == old(messages) + [Message(Assistant, Reply(outcome))]
      ensures !loading
      ensures open == old(open) && input == old(input)
    {
      messages := messages + [Message(Assistant, Reply(outcome))];
      loading := false;
    }

    /**
     * One whole `sendMessage` with no other event in between: an accepted
     * submission adds the user message and then the assistant message, and
     * leaves the widget idle.
     */
    method Send(outcome: Outcome) returns (prompt: Option<string>)
      requires Valid()
      modifies this`messages, this`input, this`loading
      ensures Valid()
      ensures prompt.None? <==> Trim(old(input)) == "" || old(loading)
      ensures prompt.Some? ==> prompt.value == ComposePrompt(context, Trim(old(input)))
      ensures prompt.None? ==> messages == old(messages) && input == old(input) && loading == old(loading)
      ensures prompt.Some? ==>
        !old(loading) && !loading && input == "" &&
        messages == old(messages) + [Message(User, Trim(old(input))), Message(Assistant, Reply(outcome))]
    {
      prompt := Begin();
      if prompt.Some? {
        Complete(outcome);
      }
    }
  }

  /** A draft with no white space at either end is its own trimming. */
  lemma TrimUnpadded(s: string)
    requires s != [] && !IsSpace(s[0]) && !IsSpace(s[|s| - 1])
    ensures Trim(s) == s
  {
    assert s == [] + s + [];
    TrimPadded([], s, []);
  }

  /**
   * A request in flight blocks further submissions: a second `Begin` is
   * dropped and leaves the draft alone, and after `Complete` the widget
   * accepts the waiting draft.
   */
  method SingleFlight(first: string, second: string, outcome: Outcome)
    requires Trim(first) != "" && Trim(second) != ""
  {
    var w := new TruthTortoise(None);
    w.SetInput(first);
    var p := w.Begin();
    assert p == Some(Trim(first)) && w.loading;
    w.SetInput(second);
    var q := w.Begin();
    assert q.None? && w.input == second && w.messages == [Message(User, Trim(first))];
    w.Complete(outcome);
    assert !w.loading && w.messages == [Message(User, Trim(first)), Message(Assistant, Reply(outcome))];
    var r := w.Begin();
    assert r == Some(Trim(second)) && w.input == "";
  }

  /**
   * A question asked on a page that supplies context, answered by the
   * endpoint with a text at `output[0].content[0]`: the endpoint sees the
   * labelled prompt, the transcript stores only the question, and the
   * widget ends idle with the panel still open.
   */
  method AskWithContext(context: string, question: string, answer: string)
    requires context != "" && answer != ""
    requires question != "" && !IsSpace(question[0]) && !IsSpace(question[|question| - 1])
  {
    var w := new TruthTortoise(Some(context));
    w.Toggle();
    w.SetInput(question);
    TrimUnpadded(question);
    var p := w.Begin();
    assert p == Some(ContextLabel + context + QuestionLabel + question);
    var up := AiRoute.Upstream(true, Some([AiRoute.Output(Some([AiRoute.Fragment(Some(answer))]))]));
    w.Complete(ClientBody(AiRoute.Handle(up)));
    assert w.messages == [Message(User, question), Message(Assistant, answer)];
    assert !w.loading && w.open;
  }
}
