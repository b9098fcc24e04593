/**
 * The `POST /api/ai` proxy handler (app/api/ai/route.ts).
 *
 * The handler is straight-line code: it prefixes the caller's prompt with a
 * fixed instruction, sends exactly one request upstream, maps a non-ok status
 * to a fixed error payload, and otherwise pulls the text at the nested path
 * `output[0].content[0].text`, defaulting to the empty string.  The upstream
 * call is abstracted: its reply is an input of type `Upstream`.
 */
module AiRoute {
  import opened Wrappers

  /** The fixed instruction placed in front of every caller prompt. */
  const Instruction: string := "Give a concise character bio and trivia. "

  /** The fixed upstream model identifier. */
  const ModelId: string := "gpt-4.1-mini"

  /** The generic error text returned for every upstream failure. */
  const FailureText: string := "AI request failed"

  /** The HTTP status that accompanies the generic error payload. */
  const FailureStatus: int := 500

  /** One content fragment of an upstream output; `text` may be absent or null. */
  datatype Fragment = Fragment(text: Option<string>)

  /** One upstream output; its `content` array may be absent. */
  datatype Output = Output(content: Option<seq<Fragment>>)

  /** What the upstream call yields: whether `res.ok` held, and the parsed body's `output` array, which may be absent. */
  datatype Upstream = Upstream(ok: bool, output: Option<seq<Output>>)

  /** The JSON body of the one request sent upstream. */
  datatype UpstreamRequest = UpstreamRequest(model: string, input: string)

  /** The handler's reply: `200 {text}` or `{error}` with a status. */
  datatype Response = Text(text: string) | Error(status: int, error: string)

  /** The upstream `input` field: the instruction, then the caller's prompt unchanged. */
  function UpstreamInput(prompt: string): (r: string)
    ensures |r| == |Instruction| + |prompt|
    ensures r[..|Instruction|] == Instruction
    ensures r[|Instruction|..] == prompt
  {
    Instruction + prompt
  }

  /** The single upstream request built for a prompt. */
  function BuildRequest(prompt: string): (r: UpstreamRequest)
    ensures r.model == ModelId
    ensures |r.input| == |Instruction| + |prompt|
    ensures r.input[..|Instruction|] == Instruction && r.input[|Instruction|..] == prompt
  {
    UpstreamRequest(ModelId, UpstreamInput(prompt))
  }

  /** The fragment list of the first output, if there is a first output carrying one. */
  function FirstContent(output: Option<seq<Output>>): Option<seq<Fragment>>
  {
    match output
    case Some(outs) => if |outs| > 0 then outs[0].content else None
    case None => None
  }

  /**
   * The optional chain `output?.[0]?.content?.[0]?.text`: absent as soon as
   * any link is missing.  Only index 0 is consulted at each level.
   */
  function ExtractText(output: Option<seq<Output>>): (r: Option<string>)
    ensures r.Some? <==>
      output.Some? && |output.value| > 0 &&
      output.value[0].content.Some? && |output.value[0].content.value| > 0 &&
      output.value[0].content.value[0].text.Some?
    ensures r.Some? ==> r.value == output.value[0].content.value[0].text.value
  {
    match FirstContent(output)
    case Some(frags) => if |frags| > 0 then frags[0].text else None
    case None => None
  }

  /**
   * The handler `POST`'s answer, once `request.json()` and `fetch` are
   * abstracted.  The prompt only shapes the one upstream request,
   * `BuildRequest(prompt)`; the answer depends on the upstream reply alone.
   */
  function Handle(reply: Upstream): (r: Response)
    ensures r.Error? <==> !reply.ok
    ensures r.Error? ==> r == Error(FailureStatus, FailureText)
    ensures reply.ok && ExtractText(reply.output).Some? ==> r == Text(ExtractText(reply.output).value)
    ensures reply.ok && ExtractText(reply.output).None? ==> r == Text("")
  {
    if !reply.ok then Error(FailureStatus, FailureText)
    else
      var text := match ExtractText(reply.output) case Some(t) => t case None => "";
      Text(text)
  }

  /** A non-ok upstream status decides the reply alone: the upstream body does not matter. */
  lemma FailureIgnoresBody(a: Upstream, b: Upstream)
    requires !a.ok && !b.ok
    ensures Handle(a) == Handle(b) == Error(500, "AI request failed")
  {
  }

  /** On an ok status the reply depends only on the first fragment of the first output. */
  lemma OnlyFirstFragmentMatters(a: Upstream, b: Upstream)
    requires a.ok && b.ok
    requires FirstContent(a.output).Some? && FirstContent(b.output).Some?
    requires |FirstContent(a.output).value| > 0 && |FirstContent(b.output).value| > 0
    requires FirstContent(a.output).value[0] == FirstContent(b.output).value[0]
    ensures Handle(a) == Handle(b)
  {
  }

  /** The text of the first fragment, across the list of fragments, that carries one. */
  function FirstTextIn(frags: seq<Fragment>): (r: Option<string>)
    ensures r.Some? <==> exists i :: 0 <= i < |frags| && frags[i].text.Some?
    ensures r.Some? ==> exists i :: 0 <= i < |frags| && frags[i].text == r &&
                          forall j :: 0 <= j < i ==> frags[j].text.None?
  {
    if |frags| == 0 then None
    else if frags[0].text.Some? then frags[0].text
    else
      var rest := FirstTextIn(frags[1..]);
      assert forall i :: 1 <= i < |frags| ==> frags[i] == frags[1..][i - 1];
      rest
  }

  /**
   * A reference reading of the payload: the first text found anywhere in
   * the output→content→text nesting, scanning outputs and fragments in
   * order.  The handler does NOT implement this; the lemmas below relate it
   * to `ExtractText`.
   */
  function FirstAvailableText(outs: seq<Output>): (r: Option<string>)
    ensures r.None? <==> forall i :: 0 <= i < |outs| ==>
      outs[i].content.None? || FirstTextIn(outs[i].content.value).None?
  {
    if |outs| == 0 then None
    else
      var here := match outs[0].content case Some(frags) => FirstTextIn(frags) case None => None;
      if here.Some? then here
      else
        var rest := FirstAvailableText(outs[1..]);
        assert forall i :: 1 <= i < |outs| ==> outs[i] == outs[1..][i - 1];
        rest
  }

  /** Whenever the handler's path yields a text, it is the first available text as well. */
  lemma ExtractAgreesWhenPresent(outs: seq<Output>)
    requires ExtractText(Some(outs)).Some?
    ensures FirstAvailableText(outs) == ExtractText(Some(outs))
  {
  }

  /**
   * Text in a later output is ignored: if the first output has no text in
   * its fragment at index 0, the handler answers `{text: ''}` even when a
   * later output carries text.
   */
  lemma LaterTextIgnored(first: Output, later: seq<Output>, t: string)
    requires first.content.None? || |first.content.value| == 0 || first.content.value[0].text.None?
    requires exists i :: 0 <= i < |later| && later[i].content.Some? &&
               exists j :: 0 <= j < |later[i].content.value| && later[i].content.value[j].text == Some(t)
    ensures Handle(Upstream(true, Some([first] + later))) == Text("")
    ensures FirstAvailableText([first] + later).Some?
  {
    var i :| 0 <= i < |later| && later[i].content.Some? &&
               exists j :: 0 <= j < |later[i].content.value| && later[i].content.value[j].text == Some(t);
    var outs := [first] + later;
    assert outs[i + 1] == later[i];
    assert FirstTextIn(outs[i + 1].content.value).Some?;
  }
}
