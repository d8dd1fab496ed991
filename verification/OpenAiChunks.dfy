/**
 The OpenAI streaming chunks both converters read, and reference functions over the tool-call
 deltas of a stream: what a client that simply collected the deltas would assemble.

 A missing string is the empty string, a missing object is None: the converters test for
 truth, which does not tell the two apart.
 */
module OpenAiChunks {
  import opened Wrappers

  datatype Usage = Usage(promptTokens: int, completionTokens: int, totalTokens: int)

  datatype ToolDelta = ToolDelta(index: int, id: string, name: string, args: string)

  datatype Choice = Choice(content: string, toolCalls: seq<ToolDelta>, finishReason: string)

  datatype Chunk = Chunk(usage: Option<Usage>, choices: seq<Choice>)

  /** A chunk with one choice and no usage. */
  function Single(content: string, toolCalls: seq<ToolDelta>, finishReason: string): Chunk {
    Chunk(None, [Choice(content, toolCalls, finishReason)])
  }

  /** A call id: the one received, or one generated by the converter (`uuid4`), numbered so
      that no two generated ids are equal. */
  datatype CallId = Given(id: string) | Generated(number: nat)

  // ---------------------------------------------------------------- tool calls, collected

  /** Tool indexes in order of first appearance. */
  function Tools(ds: seq<ToolDelta>): seq<int> {
    if ds == [] then []
    else
      var init, d := Tools(ds[..|ds| - 1]), ds[|ds| - 1];
      if d.index in init then init else init + [d.index]
  }

  /** Everything received as arguments of one tool index. */
  function ArgsOf(ds: seq<ToolDelta>, index: int): string {
    if ds == [] then ""
    else
      var init, d := ArgsOf(ds[..|ds| - 1], index), ds[|ds| - 1];
      if d.index == index then init + d.args else init
  }

  /** The first delta of a tool index: it carries the id and the name. */
  function FirstOf(ds: seq<ToolDelta>, index: int): (d: ToolDelta)
    requires index in Tools(ds)
    ensures d in ds && d.index == index
  {
    var init := ds[..|ds| - 1];
    if index in Tools(init) then FirstOf(init, index) else ds[|ds| - 1]
  }

  /** How many tools opened without an id, so that one had to be generated. */
  function Unnamed(ds: seq<ToolDelta>): nat {
    if ds == [] then 0
    else
      var init, d := ds[..|ds| - 1], ds[|ds| - 1];
      Unnamed(init) + if d.index !in Tools(init) && d.id == "" then 1 else 0
  }

  /** The id a tool index is announced under: the one received, else the next generated one. */
  function IdOf(ds: seq<ToolDelta>, index: int): CallId
    requires index in Tools(ds)
  {
    var init, d := ds[..|ds| - 1], ds[|ds| - 1];
    if index in Tools(init) then IdOf(init, index)
    else if d.id != "" then Given(d.id) else Generated(Unnamed(init))
  }

  lemma ToolsSnoc(ds: seq<ToolDelta>, d: ToolDelta)
    ensures Tools(ds + [d]) == if d.index in Tools(ds) then Tools(ds) else Tools(ds) + [d.index]
    ensures forall i :: ArgsOf(ds + [d], i) == if i == d.index then ArgsOf(ds, i) + d.args else ArgsOf(ds, i)
    ensures Unnamed(ds + [d]) == Unnamed(ds) + if d.index !in Tools(ds) && d.id == "" then 1 else 0
    ensures forall i <- Tools(ds) :: FirstOf(ds + [d], i) == FirstOf(ds, i) && IdOf(ds + [d], i) == IdOf(ds, i)
    ensures d.index !in Tools(ds) ==>
              FirstOf(ds + [d], d.index) == d
              && IdOf(ds + [d], d.index) == if d.id != "" then Given(d.id) else Generated(Unnamed(ds))
  {
    assert (ds + [d])[..|ds|] == ds;
  }

  /** A tool index that has not appeared has received no arguments. */
  lemma {:induction false} UnseenHasNoArgs(ds: seq<ToolDelta>, index: int)
    requires index !in Tools(ds)
    ensures ArgsOf(ds, index) == ""
  {
    if ds != [] { UnseenHasNoArgs(ds[..|ds| - 1], index); }
  }

  // ---------------------------------------------------------------- the parts of a stream

  /** The text fragments of a stream, in order; only the first choice of a chunk is read. */
  function Contents(cs: seq<Chunk>): seq<string> {
    if cs == [] then []
    else
      var init, c := Contents(cs[..|cs| - 1]), cs[|cs| - 1];
      if c.choices == [] then init else init + [c.choices[0].content]
  }

  /** The tool-call deltas of a stream, in order. */
  function Deltas(cs: seq<Chunk>): seq<ToolDelta> {
    if cs == [] then []
    else
      var init, c := Deltas(cs[..|cs| - 1]), cs[|cs| - 1];
      if c.choices == [] then init else init + c.choices[0].toolCalls
  }

  /** The usage most recently reported. */
  function LastUsage(cs: seq<Chunk>): Option<Usage> {
    if cs == [] then None
    else if cs[|cs| - 1].usage.Some? then cs[|cs| - 1].usage
    else LastUsage(cs[..|cs| - 1])
  }

  /** The finish reason most recently reported. */
  function LastFinish(cs: seq<Chunk>): string {
    if cs == [] then ""
    else
      var c := cs[|cs| - 1];
      if c.choices != [] && c.choices[0].finishReason != "" then c.choices[0].finishReason
      else LastFinish(cs[..|cs| - 1])
  }
}
