/** The model's streamed answer and the pieces shared by the three places that fold it into state:
    the main conversation, the synthesis document and the follow-up conversation. */
module StreamReducer {
  import opened Wrappers
  import opened Types
  import opened Strings

  /** What a failed stream throws: an `Error` object carrying a message, or any other value. */
  datatype Thrown = ErrorObject(message: string) | OtherValue

  /** The message the handlers show: the error's own message, or a fixed text when the thrown
      value is not an `Error` (the `error instanceof Error` test). */
  function ErrorMessage(t: Thrown): (msg: string)
    ensures t.ErrorObject? ==> msg == t.message
    ensures t.OtherValue? ==> msg == "An unknown error occurred"
  {
    match t
    case ErrorObject(m) => m
    case OtherValue => "An unknown error occurred"
  }

  /** One model answer as the handlers see it: the chunks yielded, in order, and then either the
      end of the stream (`failure == None`) or a throw. A failure before any chunk has `chunks == []`. */
  datatype Stream = Stream(chunks: seq<string>, failure: Option<Thrown>)

  /** The stream a handler consumes when the service function it calls may throw before reaching
      the network: that throw surfaces at the first step of the iteration, with no chunk yielded. */
  function Delivered<T>(call: Result<T>, reply: Stream): (s: Stream)
    ensures call.Failure? ==> s.chunks == [] && s.failure == Some(ErrorObject(call.error))
    ensures call.Success? ==> s == reply
  {
    if call.Failure? then Stream([], Some(ErrorObject(call.error))) else reply
  }

  /** The content a pending reply shows before its first chunk. */
  const Pending: string := "..."

  /** The log with its last entry replaced by `m` (the `index === prev.length - 1` map). */
  function ReplaceLast(log: seq<Message>, m: Message): (r: seq<Message>)
    requires |log| > 0
    ensures |r| == |log|
    ensures r[..|log| - 1] == log[..|log| - 1]
    ensures r[|log| - 1] == m
  {
    seq(|log|, i requires 0 <= i < |log| => if i == |log| - 1 then m else log[i])
  }

  /** Replacing the last entry of a log that ends in `m` keeps everything before `m`. */
  lemma ReplaceLastOf(base: seq<Message>, m: Message, m': Message)
    ensures ReplaceLast(base + [m], m') == base + [m']
  {
    var r := ReplaceLast(base + [m], m');
    assert r[..|base|] == base;
  }

  /** The log with only the content of its last entry changed. */
  function WithLastContent(log: seq<Message>, content: string): (r: seq<Message>)
    requires |log| > 0
    ensures |r| == |log| && r[..|log| - 1] == log[..|log| - 1]
    ensures r[|log| - 1].id == log[|log| - 1].id && r[|log| - 1].sender == log[|log| - 1].sender
    ensures r[|log| - 1].content == content
  {
    ReplaceLast(log, log[|log| - 1].(content := content))
  }

  /** Folding chunks one at a time with `+=` yields their concatenation: after the first `i + 1`
      chunks the accumulated text is the text after `i` chunks extended by chunk `i`. */
  lemma AccumulateStep(chunks: seq<string>, i: nat)
    requires i < |chunks|
    ensures Concat(chunks[..i + 1]) == Concat(chunks[..i]) + chunks[i]
  {
    assert chunks[..i + 1][..i] == chunks[..i];
  }
}
