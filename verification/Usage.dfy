/** Token usage and the metering wrapper around a model stream. */
module Usage {
  import opened Wrappers

  datatype TokenUsage = TokenUsage(promptTokens: int, completionTokens: int, totalTokens: int)

  const ZERO_USAGE := TokenUsage(0, 0, 0)

  function AddUsage(a: TokenUsage, b: TokenUsage): TokenUsage {
    TokenUsage(a.promptTokens + b.promptTokens, a.completionTokens + b.completionTokens,
               a.totalTokens + b.totalTokens)
  }

  lemma AddZero(u: TokenUsage)
    ensures AddUsage(u, ZERO_USAGE) == u
  {
  }

  /** About four characters a token, rounded up. */
  function EstimateTokens(text: string): (r: nat)
    ensures 4 * r >= |text| && (r > 0 ==> 4 * (r - 1) < |text|)
  {
    (|text| + 3) / 4
  }

  function EstimateUsage(promptText: string, completionText: string): (u: TokenUsage)
    ensures 4 * u.promptTokens >= |promptText| && (promptText != "" ==> 4 * (u.promptTokens - 1) < |promptText|)
    ensures 4 * u.completionTokens >= |completionText|
            && (completionText != "" ==> 4 * (u.completionTokens - 1) < |completionText|)
    ensures u.totalTokens == u.promptTokens + u.completionTokens && u.promptTokens >= 0 && u.completionTokens >= 0
  {
    var p, c := EstimateTokens(promptText), EstimateTokens(completionText);
    TokenUsage(p, c, p + c)
  }

  datatype ToolCall = ToolCall(id: Option<string>, name: string, args: string)

  datatype StreamResult = StreamResult(usage: TokenUsage, toolCalls: seq<ToolCall>)

  /** What the provider will send if it is pulled to the end: text chunks, then either a
      final result or a fault. */
  datatype Script = Script(chunks: seq<string>, end: Option<StreamResult>)

  function Joined(chunks: seq<string>): string {
    if chunks == [] then "" else Joined(chunks[..|chunks| - 1]) + chunks[|chunks| - 1]
  }

  /** A running tally of what the calls of one run have deposited. */
  class UsageAccumulator {
    var total: TokenUsage

    constructor ()
      ensures total == ZERO_USAGE
    {
      total := ZERO_USAGE;
    }

    method Add(usage: TokenUsage)
      modifies this
      ensures total == AddUsage(old(total), usage)
    {
      total := AddUsage(total, usage);
    }
  }

  datatype Pull = Chunk(text: string) | Returned(result: StreamResult) | Thrown

  /** A generator is fresh until it is first pulled, suspended at a yield between pulls,
      and finished once it has returned, thrown, or been told to return. */
  datatype Phase = Fresh | Suspended | Finished

  class MeteredStream {
    const script: Script
    const promptText: string
    const sink: UsageAccumulator
    var pulled: nat
    var phase: Phase
    var streamedText: string
    ghost var deposited: seq<TokenUsage>

    ghost predicate Valid()
      reads this
    {
      && pulled <= |script.chunks|
      && (phase == Fresh ==> pulled == 0)
      && (phase != Finished ==> deposited == [])
      && |deposited| <= 1
    }

    /** The text kept for the estimate is what was handed over. */
    ghost predicate TextKept()
      requires pulled <= |script.chunks|
      reads this
    {
      streamedText == Joined(script.chunks[..pulled])
    }

    lemma WholeText()
      requires pulled == |script.chunks| && TextKept()
      ensures streamedText == Joined(script.chunks)
    {
      assert script.chunks[..pulled] == script.chunks;
    }

    constructor (script: Script, promptText: string, sink: UsageAccumulator)
      ensures Valid() && TextKept() && phase == Fresh && pulled == 0 && streamedText == ""
      ensures this.script == script && this.promptText == promptText && this.sink == sink
    {
      this.script, this.promptText, this.sink := script, promptText, sink;
      pulled, phase, streamedText, deposited := 0, Fresh, "", [];
    }

    /** One `next()`: a chunk, or the clean end, which deposits the reported usage, or a
        provider fault, which deposits nothing. */
    method Next() returns (p: Pull)
      requires Valid() && phase != Finished
      modifies this, sink
      ensures Valid() && (old(TextKept()) ==> TextKept())
      ensures match p
        case Chunk(text) =>
          && old(pulled) < |script.chunks| && text == script.chunks[old(pulled)]
          && pulled == old(pulled) + 1 && phase == Suspended
          && streamedText == old(streamedText) + text
          && sink.total == old(sink.total)
        case Returned(result) =>
          && pulled == old(pulled) == |script.chunks| && script.end == Some(result) && phase == Finished
          && streamedText == old(streamedText)
          && deposited == [result.usage]
          && sink.total == AddUsage(old(sink.total), result.usage)
        case Thrown =>
          && pulled == old(pulled) == |script.chunks| && script.end == None && phase == Finished
          && streamedText == old(streamedText)
          && deposited == []
          && sink.total == old(sink.total)
    {
      if pulled < |script.chunks| {
        p := Chunk(script.chunks[pulled]);
        assert script.chunks[..pulled + 1][..pulled] == script.chunks[..pulled];
        streamedText := streamedText + script.chunks[pulled];
        pulled, phase := pulled + 1, Suspended;
      } else {
        phase := Finished;
        match script.end
        case Some(result) =>
          sink.Add(result.usage);
          deposited := [result.usage];
          p := Returned(result);
        case None =>
          p := Thrown;
      }
    }

    /** The consumer stops pulling. Only a stream suspended at a yield deposits: the
        estimate of the prompt and of the text already handed over. */
    method Return() returns (deposit: Option<TokenUsage>)
      requires Valid()
      modifies this, sink
      ensures Valid() && phase == Finished && pulled == old(pulled) && streamedText == old(streamedText)
      ensures deposit == if old(phase) == Suspended
                         then Some(EstimateUsage(promptText, streamedText)) else None
      ensures deposited == if deposit.Some? then [deposit.value] else old(deposited)
      ensures sink.total == if deposit.Some? then AddUsage(old(sink.total), deposit.value) else old(sink.total)
    {
      deposit := None;
      if phase == Suspended {
        var usage := EstimateUsage(promptText, streamedText);
        sink.Add(usage);
        deposited, deposit := [usage], Some(usage);
      }
      phase := Finished;
    }
  }

  /** What a call costs a consumer with the patience for n pulls, whatever it does with the
      chunks: nothing unpulled, the estimate when abandoned, the reported usage when drained,
      nothing when the provider breaks. */
  function CallCost(script: Script, promptText: string, n: nat): TokenUsage {
    if n == 0 then ZERO_USAGE
    else if n <= |script.chunks| then EstimateUsage(promptText, Joined(script.chunks[..n]))
    else if script.end.Some? then script.end.value.usage
    else ZERO_USAGE
  }

  /** Pull at most n times, then let go. The tally grows by the bill, in one deposit. */
  method PullThenReturn(stream: MeteredStream, n: nat)
    requires stream.Valid() && stream.phase == Fresh && stream.TextKept()
    modifies stream, stream.sink
    ensures stream.Valid() && stream.phase == Finished
    ensures stream.sink.total == AddUsage(old(stream.sink.total), CallCost(stream.script, stream.promptText, n))
    ensures |stream.deposited| <= 1
    ensures stream.deposited == [] ==> CallCost(stream.script, stream.promptText, n) == ZERO_USAGE
    ensures stream.deposited != [] ==> stream.deposited == [CallCost(stream.script, stream.promptText, n)]
  {
    var i := 0;
    while i < n
      invariant stream.Valid() && stream.TextKept()
      invariant i == stream.pulled <= n && stream.phase == if i > 0 then Suspended else Fresh
      invariant stream.sink.total == old(stream.sink.total)
    {
      var p := stream.Next();
      if !p.Chunk? {
        AddZero(old(stream.sink.total));
        return;
      }
      i := i + 1;
    }
    AddZero(old(stream.sink.total));
    var deposit := stream.Return();
  }
}
