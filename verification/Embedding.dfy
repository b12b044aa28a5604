/** Embeddings: putting a provider's answer back in input order, embedding in batches, and the
    one-entry memo two retrieval arms share. */
module Embedding {
  import opened Wrappers
  import opened Usage

  type Vector = seq<real>

  datatype Item = Item(index: Option<int>, embedding: Option<Vector>)

  datatype Fault =
    | WrongCount(got: nat)
    | MalformedItem
    | WrongDimensions(got: nat)
    | DuplicateIndex(index: int)

  datatype Answer = Rejected(fault: Fault) | Vectors(vectors: seq<Vector>)

  predicate InRange(item: Item, n: nat) {
    item.index.Some? && 0 <= item.index.value < n && item.embedding.Some?
  }

  /** What is wrong with item `k`, given the items before it. */
  function ItemFault(items: seq<Item>, k: nat, n: nat, dimensions: int): Option<Fault>
    requires k < |items|
  {
    if !InRange(items[k], n) then Some(MalformedItem)
    else if |items[k].embedding.value| != dimensions then Some(WrongDimensions(|items[k].embedding.value|))
    else if exists j :: 0 <= j < k && items[j].index == items[k].index then Some(DuplicateIndex(items[k].index.value))
    else None
  }

  ghost predicate Accepts(items: seq<Item>, n: nat, dimensions: int) {
    |items| == n && forall k :: 0 <= k < n ==> ItemFault(items, k, n, dimensions).None?
  }

  predicate Usable(item: Item, n: nat, dimensions: int) {
    && item.index.Some? && 0 <= item.index.value < n
    && item.embedding.Some? && |item.embedding.value| == dimensions
  }

  /** An answer is accepted exactly if it has one item per input, each with an index in range and a
      vector of the right size, and no two with the same index. */
  lemma AcceptsIff(items: seq<Item>, n: nat, dimensions: int)
    ensures Accepts(items, n, dimensions) <==>
            && |items| == n
            && (forall k :: 0 <= k < |items| ==> Usable(items[k], n, dimensions))
            && (forall j, k :: 0 <= j < k < |items| ==> items[j].index != items[k].index)
  {
    if Accepts(items, n, dimensions) {
      forall j, k | 0 <= j < k < |items|
        ensures items[j].index != items[k].index
      {
        assert ItemFault(items, k, n, dimensions).None?;
      }
      forall k | 0 <= k < |items|
        ensures Usable(items[k], n, dimensions)
      {
        assert ItemFault(items, k, n, dimensions).None?;
      }
    }
  }

  ghost function Indices(items: seq<Item>): set<int> {
    set k | 0 <= k < |items| && items[k].index.Some? :: items[k].index.value
  }

  lemma {:induction false} DistinctIndices(items: seq<Item>, n: nat, dimensions: int)
    requires forall k :: 0 <= k < |items| ==> ItemFault(items, k, n, dimensions).None?
    ensures |Indices(items)| == |items| && forall i :: i in Indices(items) ==> 0 <= i < n
  {
    if items != [] {
      var before, last := items[..|items| - 1], items[|items| - 1];
      forall k | 0 <= k < |before|
        ensures ItemFault(before, k, n, dimensions).None?
      {
        assert ItemFault(items, k, n, dimensions).None?;
        assert forall j :: 0 <= j < k ==> before[j] == items[j];
      }
      DistinctIndices(before, n, dimensions);
      assert ItemFault(items, |before|, n, dimensions).None?;
      assert forall k :: 0 <= k < |before| ==> before[k] == items[k];
      assert Indices(items) == Indices(before) + {last.index.value};
      assert last.index.value !in Indices(before);
    }
  }

  ghost function Below(n: nat): (all: set<int>)
    ensures |all| == n && forall i :: i in all <==> 0 <= i < n
  {
    if n == 0 then {} else Below(n - 1) + {n - 1}
  }

  /** As many items as slots, every index in range and none twice: every slot is named. */
  lemma EverySlotIsNamed(items: seq<Item>, n: nat, dimensions: int, slot: int)
    requires Accepts(items, n, dimensions) && 0 <= slot < n
    ensures Named(items, slot)
  {
    DistinctIndices(items, n, dimensions);
    assert Indices(items) <= Below(n);
    SubsetOfSameSize(Indices(items), Below(n));
    assert slot in Indices(items);
  }

  lemma SubsetOfSameSize(a: set<int>, b: set<int>)
    requires a <= b && |a| == |b|
    ensures a == b
  {
    assert b == a + (b - a) && |b - a| == |b| - |a|;
  }

  ghost predicate Named(items: seq<Item>, slot: int) {
    exists k :: 0 <= k < |items| && items[k].index == Some(slot)
  }

  ghost predicate Aligned(items: seq<Item>, vectors: seq<Vector>) {
    && |vectors| == |items|
    && (forall k :: 0 <= k < |items| ==>
          items[k].index.Some? && 0 <= items[k].index.value < |vectors| && items[k].embedding.Some?
          && vectors[items[k].index.value] == items[k].embedding.value)
    && (forall slot :: 0 <= slot < |vectors| ==> Named(items, slot))
  }

  lemma NotLonger(items: seq<Item>, other: seq<Item>, a: seq<Vector>, b: seq<Vector>)
    requires Aligned(items, a) && Aligned(other, b)
    requires forall item :: item in items <==> item in other
    ensures |a| <= |b|
  {
    if |a| > 0 {
      assert Named(items, |a| - 1);
      var k :| 0 <= k < |items| && items[k].index == Some(|a| - 1);
      assert items[k] in other;
    }
  }

  /** The order the items arrive in does not matter: the alignment determines every vector. */
  lemma AlignmentIsUnique(items: seq<Item>, other: seq<Item>, a: seq<Vector>, b: seq<Vector>)
    requires Aligned(items, a) && Aligned(other, b)
    requires forall item :: item in items <==> item in other
    ensures a == b
  {
    NotLonger(items, other, a, b);
    NotLonger(other, items, b, a);
    forall slot | 0 <= slot < |a|
      ensures a[slot] == b[slot]
    {
      assert Named(items, slot);
      var k :| 0 <= k < |items| && items[k].index == Some(slot);
      assert items[k] in other;
    }
  }

  lemma NamedGrows(items: seq<Item>, k: nat)
    requires k < |items|
    ensures forall slot :: Named(items[..k], slot) || items[k].index == Some(slot) ==> Named(items[..k + 1], slot)
  {
    assert items[..k + 1] == items[..k] + [items[k]];
    forall slot | Named(items[..k], slot)
      ensures Named(items[..k + 1], slot)
    {
      var j :| 0 <= j < k && items[..k][j].index == Some(slot);
      assert items[..k + 1][j].index == Some(slot);
    }
    assert items[..k + 1][k] == items[k];
  }

  /** The provider's items, in place into an array with a slot per input. Accepted exactly when
      the counts agree and no item is at fault; then every slot holds the vector whose index
      names it. Otherwise the first faulty item decides the error. */
  method Reorder(items: seq<Item>, n: nat, dimensions: int) returns (answer: Answer)
    ensures answer.Vectors? <==> Accepts(items, n, dimensions)
    ensures answer.Vectors? ==> Aligned(items, answer.vectors)
    ensures answer.Rejected? && |items| != n ==> answer.fault == WrongCount(|items|)
    ensures answer.Rejected? && |items| == n ==>
              exists k :: 0 <= k < n && ItemFault(items, k, n, dimensions) == Some(answer.fault)
                          && forall j :: 0 <= j < k ==> ItemFault(items, j, n, dimensions).None?
  {
    if |items| != n {
      return Rejected(WrongCount(|items|));
    }
    var vectors := new Option<Vector>[n](_ => None);
    for k := 0 to n
      invariant forall j :: 0 <= j < k ==> ItemFault(items, j, n, dimensions).None?
      invariant forall j :: 0 <= j < k ==> InRange(items[j], n) && vectors[items[j].index.value] == items[j].embedding
      invariant forall slot :: 0 <= slot < n && vectors[slot].Some? ==> Named(items[..k], slot)
    {
      ghost var fault := ItemFault(items, k, n, dimensions);
      if !InRange(items[k], n) {
        return Rejected(MalformedItem);
      }
      var index, embedding := items[k].index.value, items[k].embedding.value;
      if |embedding| != dimensions {
        return Rejected(WrongDimensions(|embedding|));
      }
      if vectors[index].Some? {
        assert Named(items[..k], index);
        return Rejected(DuplicateIndex(index));
      }
      vectors[index] := Some(embedding);
      NamedGrows(items, k);
    }
    forall slot | 0 <= slot < n
      ensures vectors[slot].Some? && Named(items, slot)
    {
      EverySlotIsNamed(items, n, dimensions, slot);
    }
    answer := Vectors(seq(n, i requires 0 <= i < n && vectors[i].Some? reads vectors => vectors[i].value));
  }

  /** Usage as the provider reported it, or estimated: an embedding completes nothing, so the
      total is the prompt, whatever total the provider claims. */
  function ToUsage(promptTokens: Option<int>, totalTokens: Option<int>, joined: string): (u: TokenUsage)
    ensures u.completionTokens == 0 && u.totalTokens == u.promptTokens
    ensures promptTokens.Some? ==> u.promptTokens == promptTokens.value
    ensures promptTokens.None? && totalTokens.Some? ==> u.promptTokens == totalTokens.value
    ensures promptTokens.None? && totalTokens.None? ==>
              4 * u.promptTokens >= |joined| && (joined != "" ==> 4 * (u.promptTokens - 1) < |joined|)
  {
    var prompt := if promptTokens.Some? then promptTokens.value
                  else if totalTokens.Some? then totalTokens.value else EstimateTokens(joined);
    TokenUsage(prompt, 0, prompt)
  }

  // Batches.

  datatype Reply = Reply(vectors: seq<Vector>, usage: TokenUsage)

  /** A gateway answers a list of texts, or fails. */
  type Gateway = seq<string> -> Option<Reply>

  datatype Pair<T> = Pair(item: T, vector: Option<Vector>)

  function Nth(vectors: seq<Vector>, i: nat): Option<Vector> {
    if i < |vectors| then Some(vectors[i]) else None
  }

  function Texts<T>(items: seq<T>, toText: T -> string): seq<string> {
    seq(|items|, i requires 0 <= i < |items| => toText(items[i]))
  }

  function Zip<T>(items: seq<T>, vectors: seq<Vector>): seq<Pair<T>> {
    seq(|items|, i requires 0 <= i < |items| => Pair(items[i], Nth(vectors, i)))
  }

  function Least(a: nat, b: nat): nat {
    if a < b then a else b
  }

  /** What the batches amount to: the pairs, or None if one of them failed. */
  function Batched<T>(embed: Gateway, items: seq<T>, toText: T -> string, size: nat): Option<seq<Pair<T>>>
    requires size >= 1
    decreases |items|
  {
    if items == [] then Some([])
    else
      var n := Least(size, |items|);
      var reply := embed(Texts(items[..n], toText));
      var rest := Batched(embed, items[n..], toText, size);
      if reply.None? || rest.None? then None else Some(Zip(items[..n], reply.value.vectors) + rest.value)
  }

  /** What reaches the sink: every batch before the first failure. */
  function BatchedUsage<T>(embed: Gateway, items: seq<T>, toText: T -> string, size: nat): TokenUsage
    requires size >= 1
    decreases |items|
  {
    if items == [] then ZERO_USAGE
    else
      var n := Least(size, |items|);
      var reply := embed(Texts(items[..n], toText));
      if reply.None? then ZERO_USAGE else AddUsage(reply.value.usage, BatchedUsage(embed, items[n..], toText, size))
  }

  /** The gateway embeds each text on its own. */
  ghost predicate Pointwise(embed: Gateway, vectorOf: string -> Vector) {
    forall texts :: embed(texts).Some? && embed(texts).value.vectors
      == seq(|texts|, i requires 0 <= i < |texts| => vectorOf(texts[i]))
  }

  ghost predicate Additive(embed: Gateway) {
    && embed([]).Some? && embed([]).value.usage == ZERO_USAGE
    && forall a, b :: embed(a).Some? && embed(b).Some? && embed(a + b).Some? ==>
                        embed(a + b).value.usage == AddUsage(embed(a).value.usage, embed(b).value.usage)
  }

  /** Each item with its own vector. */
  function Each<T>(items: seq<T>, toText: T -> string, vectorOf: string -> Vector): seq<Pair<T>> {
    seq(|items|, i requires 0 <= i < |items| => Pair(items[i], Some(vectorOf(toText(items[i])))))
  }

  lemma OneShotIsEach<T>(embed: Gateway, items: seq<T>, toText: T -> string, vectorOf: string -> Vector)
    requires Pointwise(embed, vectorOf)
    ensures embed(Texts(items, toText)).Some?
    ensures Zip(items, embed(Texts(items, toText)).value.vectors) == Each(items, toText, vectorOf)
  {
    var texts := Texts(items, toText);
    assert embed(texts).value.vectors == seq(|texts|, i requires 0 <= i < |texts| => vectorOf(texts[i]));
  }

  lemma EachSplits<T>(batch: seq<T>, rest: seq<T>, toText: T -> string, vectorOf: string -> Vector)
    ensures Each(batch + rest, toText, vectorOf) == Each(batch, toText, vectorOf) + Each(rest, toText, vectorOf)
    ensures Texts(batch + rest, toText) == Texts(batch, toText) + Texts(rest, toText)
  {
  }

  lemma {:induction false} BatchingIsEach<T>(
    embed: Gateway, items: seq<T>, toText: T -> string, size: nat, vectorOf: string -> Vector)
    requires size >= 1 && Pointwise(embed, vectorOf)
    ensures Batched(embed, items, toText, size) == Some(Each(items, toText, vectorOf))
    decreases |items|
  {
    if items == [] {
      assert Each(items, toText, vectorOf) == [];
    } else {
      var n := Least(size, |items|);
      var batch, rest := items[..n], items[n..];
      assert items == batch + rest;
      BatchedSplits(embed, items, toText, size, batch, rest);
      BatchingIsEach(embed, rest, toText, size, vectorOf);
      OneShotIsEach(embed, batch, toText, vectorOf);
      EachSplits(batch, rest, toText, vectorOf);
    }
  }

  /** For every batch size, embedding in batches is embedding at once: every item with its own
      vector, in input order. */
  lemma BatchingIsOneShot<T>(
    embed: Gateway, items: seq<T>, toText: T -> string, size: nat, vectorOf: string -> Vector)
    requires size >= 1 && Pointwise(embed, vectorOf)
    ensures Batched(embed, items, toText, size) == Some(Each(items, toText, vectorOf))
    ensures embed(Texts(items, toText)).Some?
    ensures Zip(items, embed(Texts(items, toText)).value.vectors) == Each(items, toText, vectorOf)
  {
    BatchingIsEach(embed, items, toText, size, vectorOf);
    OneShotIsEach(embed, items, toText, vectorOf);
  }

  lemma AdditiveSplits(embed: Gateway, a: seq<string>, b: seq<string>)
    requires Additive(embed) && embed(a).Some? && embed(b).Some? && embed(a + b).Some?
    ensures embed(a + b).value.usage == AddUsage(embed(a).value.usage, embed(b).value.usage)
  {
  }

  /** And it charges the same, for a gateway that charges by the text. */
  lemma {:induction false} BatchingChargesTheSame<T>(
    embed: Gateway, items: seq<T>, toText: T -> string, size: nat, vectorOf: string -> Vector)
    requires size >= 1 && Pointwise(embed, vectorOf) && Additive(embed)
    ensures embed(Texts(items, toText)).Some?
    ensures BatchedUsage(embed, items, toText, size) == embed(Texts(items, toText)).value.usage
    decreases |items|
  {
    OneShotIsEach(embed, items, toText, vectorOf);
    if items == [] {
      assert Texts(items, toText) == [];
    } else {
      var n := Least(size, |items|);
      var batch, rest := items[..n], items[n..];
      assert items == batch + rest;
      BatchedSplits(embed, items, toText, size, batch, rest);
      BatchingChargesTheSame(embed, rest, toText, size, vectorOf);
      OneShotIsEach(embed, batch, toText, vectorOf);
      EachSplits(batch, rest, toText, vectorOf);
      AdditiveSplits(embed, Texts(batch, toText), Texts(rest, toText));
    }
  }

  function After<T>(done: seq<T>, rest: Option<seq<T>>): Option<seq<T>> {
    if rest.None? then None else Some(done + rest.value)
  }

  lemma AfterAfter<T>(a: seq<T>, b: seq<T>, rest: Option<seq<T>>)
    ensures After(a, After(b, rest)) == After(a + b, rest)
  {
    assert rest.Some? ==> a + (b + rest.value) == a + b + rest.value;
  }

  lemma AfterEnds<T>(done: seq<T>, rest: Option<seq<T>>)
    ensures After([], rest) == rest && After(done, Some([])) == Some(done)
  {
    assert rest.Some? ==> [] + rest.value == rest.value;
    assert done + [] == done;
  }

  lemma BatchedSplits<T>(embed: Gateway, items: seq<T>, toText: T -> string, size: nat, batch: seq<T>, rest: seq<T>)
    requires size >= 1 && items == batch + rest && |batch| == Least(size, |items|) && items != []
    ensures var reply := embed(Texts(batch, toText)); var after := Batched(embed, rest, toText, size);
      && Batched(embed, items, toText, size)
         == (if reply.None? then None else After(Zip(batch, reply.value.vectors), after))
      && BatchedUsage(embed, items, toText, size)
         == (if reply.None? then ZERO_USAGE
             else AddUsage(reply.value.usage, BatchedUsage(embed, rest, toText, size)))
  {
    assert items[..|batch|] == batch && items[|batch|..] == rest;
  }

  /** One round trip: the usage is deposited before the pairs are built. */
  method EmbedBatch<T>(embed: Gateway, batch: seq<T>, toText: T -> string, sink: UsageAccumulator)
    returns (pairs: Option<seq<Pair<T>>>)
    modifies sink
    ensures var reply := embed(Texts(batch, toText));
      && pairs == (if reply.None? then None else Some(Zip(batch, reply.value.vectors)))
      && sink.total == if reply.None? then old(sink.total) else AddUsage(old(sink.total), reply.value.usage)
  {
    var reply := embed(Texts(batch, toText));
    if reply.None? {
      return None;
    }
    sink.Add(reply.value.usage);
    var done: seq<Pair<T>> := [];
    for i := 0 to |batch|
      invariant done == Zip(batch, reply.value.vectors)[..i]
    {
      done := done + [Pair(batch[i], Nth(reply.value.vectors, i))];
    }
    assert done == Zip(batch, reply.value.vectors);
    pairs := Some(done);
  }

  method EmbedInBatches<T>(embed: Gateway, items: seq<T>, toText: T -> string, batchSize: nat, sink: UsageAccumulator)
    returns (pairs: Option<seq<Pair<T>>>)
    requires batchSize >= 1
    modifies sink
    ensures pairs == Batched(embed, items, toText, batchSize)
    ensures sink.total == AddUsage(old(sink.total), BatchedUsage(embed, items, toText, batchSize))
  {
    var done: seq<Pair<T>> := [];
    var offset := 0;
    ghost var all, charged := Batched(embed, items, toText, batchSize), BatchedUsage(embed, items, toText, batchSize);
    ghost var left := items;
    AfterEnds([], all);
    while offset < |items|
      invariant offset <= |items| && left == items[offset..]
      invariant AddUsage(sink.total, BatchedUsage(embed, left, toText, batchSize)) == AddUsage(old(sink.total), charged)
      invariant all == After(done, Batched(embed, left, toText, batchSize))
    {
      var n := Least(batchSize, |items| - offset);
      var batch := items[offset..offset + n];
      ghost var rest := items[offset + n..];
      assert left == batch + rest;
      BatchedSplits(embed, left, toText, batchSize, batch, rest);
      var embedded := EmbedBatch(embed, batch, toText, sink);
      if embedded.None? {
        return None;
      }
      AfterAfter(done, embedded.value, Batched(embed, rest, toText, batchSize));
      done := done + embedded.value;
      offset, left := offset + n, rest;
    }
    assert left == [];
    AfterEnds(done, None);
    pairs := Some(done);
  }

  // The memo.

  datatype Params = Params(model: string, dimensions: int, input: seq<string>)

  datatype Entry = Entry(key: Params, vectors: seq<Vector>)

  datatype Result = Result(vectors: seq<Vector>, usage: TokenUsage)

  /** The memo with the calls it has forwarded and the results it has handed out, by call id. */
  datatype Memo = Memo(cached: Option<Entry>, inFlight: map<nat, Params>, results: map<nat, Result>)

  const EMPTY_MEMO := Memo(None, map[], map[])

  datatype Event =
    | Embed(id: nat, params: Params)
    | Answered(id: nat, result: Result)
    | Failed(id: nat)

  predicate Hits(m: Memo, params: Params) {
    m.cached.Some? && m.cached.value.key == params
  }

  function MemoStep(m: Memo, e: Event): Memo {
    match e
    case Embed(id, params) =>
      if id in m.inFlight || id in m.results then m
      else if Hits(m, params) then m.(results := m.results[id := Result(m.cached.value.vectors, ZERO_USAGE)])
      else m.(inFlight := m.inFlight[id := params])
    case Answered(id, result) =>
      if id !in m.inFlight then m
      else Memo(Some(Entry(m.inFlight[id], result.vectors)), m.inFlight - {id}, m.results[id := result])
    case Failed(id) =>
      m.(inFlight := m.inFlight - {id})
  }

  function MemoRun(es: seq<Event>): Memo {
    if es == [] then EMPTY_MEMO else MemoStep(MemoRun(es[..|es| - 1]), es[|es| - 1])
  }

  datatype Course = NotAsked | Forwarded(params: Params) | Given(result: Result)

  /** The last answer that came back, with what was asked for: told by the events alone. */
  function LastAnswer(es: seq<Event>): Option<Entry>
    decreases |es|, 0
  {
    if es == [] then None
    else
      var before, e := es[..|es| - 1], es[|es| - 1];
      if e.Answered? && CourseOf(before, e.id).Forwarded?
      then Some(Entry(CourseOf(before, e.id).params, e.result.vectors)) else LastAnswer(before)
  }

  /** What became of a call: a repeat of the parameters answered last is given those vectors for
      nothing, any other goes to the provider, and one that failed may be made again. */
  function CourseOf(es: seq<Event>, id: nat): Course
    decreases |es|, 0
  {
    if es == [] then NotAsked
    else
      var before := es[..|es| - 1];
      var p, last := CourseOf(before, id), LastAnswer(before);
      match es[|es| - 1]
      case Embed(i, params) =>
        if i != id || !p.NotAsked? then p
        else if last.Some? && last.value.key == params then Given(Result(last.value.vectors, ZERO_USAGE))
        else Forwarded(params)
      case Answered(i, result) => if i == id && p.Forwarded? then Given(result) else p
      case Failed(i) => if i == id && p.Forwarded? then NotAsked else p
  }

  predicate CallStands(m: Memo, id: nat, course: Course) {
    match course
    case NotAsked => id !in m.inFlight && id !in m.results
    case Forwarded(params) => id in m.inFlight && m.inFlight[id] == params && id !in m.results
    case Given(result) => id !in m.inFlight && id in m.results && m.results[id] == result
  }

  /** Over every run: the memo remembers the last answer and nothing else, forwards exactly the
      calls that do not repeat it, and hands out that answer, or the provider's own. */
  lemma {:induction false} MemoIsItsHistory(es: seq<Event>)
    ensures MemoRun(es).cached == LastAnswer(es)
    ensures forall id: nat :: CallStands(MemoRun(es), id, CourseOf(es, id))
  {
    if es != [] {
      var before := es[..|es| - 1];
      MemoIsItsHistory(before);
      forall id: nat
        ensures CallStands(MemoRun(es), id, CourseOf(es, id))
      {
        assert CallStands(MemoRun(before), id, CourseOf(before, id));
      }
      var e := es[|es| - 1];
      assert CallStands(MemoRun(before), e.id, CourseOf(before, e.id));
    }
  }

  /** The parameters call `id` was first made with. */
  function AskedWith(es: seq<Event>, id: nat): Option<Params> {
    if es == [] then None
    else
      var earlier := AskedWith(es[..|es| - 1], id);
      if earlier.Some? then earlier
      else if es[|es| - 1].Embed? && es[|es| - 1].id == id then Some(es[|es| - 1].params) else None
  }

  /** The wrapped gateway is deterministic: an answer carries the vectors of its parameters. */
  ghost predicate Deterministic(es: seq<Event>, vectorsOf: Params -> seq<Vector>) {
    forall i :: 0 <= i < |es| && es[i].Answered? ==>
                  var m := MemoRun(es[..i]);
                  es[i].id in m.inFlight ==> es[i].result.vectors == vectorsOf(m.inFlight[es[i].id])
  }

  /** Each call that was not made twice under one id. */
  ghost predicate FreshIds(es: seq<Event>) {
    forall i, j :: 0 <= i < j < |es| && es[i].Embed? && es[j].Embed? ==> es[i].id != es[j].id
  }

  ghost predicate MemoInv(m: Memo, es: seq<Event>, vectorsOf: Params -> seq<Vector>) {
    && (m.cached.Some? ==> m.cached.value.vectors == vectorsOf(m.cached.value.key))
    && (forall id :: id in m.inFlight ==> AskedWith(es, id) == Some(m.inFlight[id]))
    && (forall id :: id in m.results ==>
          AskedWith(es, id).Some? && m.results[id].vectors == vectorsOf(AskedWith(es, id).value))
  }

  lemma AskedOnce(es: seq<Event>, id: nat)
    requires es != [] && FreshIds(es) && es[|es| - 1].Embed? && es[|es| - 1].id == id
    ensures AskedWith(es[..|es| - 1], id).None?
  {
    AskedMeansEmbedded(es[..|es| - 1], id);
  }

  lemma {:induction false} AskedMeansEmbedded(es: seq<Event>, id: nat)
    ensures AskedWith(es, id).Some? ==> exists i :: 0 <= i < |es| && es[i].Embed? && es[i].id == id
  {
    if es != [] {
      var before := es[..|es| - 1];
      AskedMeansEmbedded(before, id);
      if AskedWith(before, id).Some? {
        var i :| 0 <= i < |before| && before[i].Embed? && before[i].id == id;
        assert es[i].Embed? && es[i].id == id;
      }
    }
  }

  lemma {:induction false} MemoRunKeepsInv(es: seq<Event>, vectorsOf: Params -> seq<Vector>)
    requires FreshIds(es) && Deterministic(es, vectorsOf)
    ensures MemoInv(MemoRun(es), es, vectorsOf)
  {
    if es != [] {
      var before, last := es[..|es| - 1], es[|es| - 1];
      assert forall i :: 0 <= i < |before| ==> before[i] == es[i] && before[..i] == es[..i];
      MemoRunKeepsInv(before, vectorsOf);
      if last.Embed? {
        AskedOnce(es, last.id);
      }
      assert es[..|before|] == before;
      MemoStepKeepsInv(MemoRun(before), before, es, vectorsOf);
    }
  }

  lemma MemoStepKeepsInv(m: Memo, before: seq<Event>, es: seq<Event>, vectorsOf: Params -> seq<Vector>)
    requires es != [] && before == es[..|es| - 1] && MemoInv(m, before, vectorsOf)
    requires es[|es| - 1].Embed? ==> AskedWith(before, es[|es| - 1].id).None?
    requires var e := es[|es| - 1];
      e.Answered? && e.id in m.inFlight ==> e.result.vectors == vectorsOf(m.inFlight[e.id])
    ensures MemoInv(MemoStep(m, es[|es| - 1]), es, vectorsOf)
  {
    assert forall id: nat :: AskedWith(before, id).Some? ==> AskedWith(es, id) == AskedWith(before, id);
  }

  /** For every interleaving of concurrent calls, answers and failures, whatever the memo hands
      out is what the wrapped gateway would have answered to the same parameters. */
  lemma MemoIsTransparent(es: seq<Event>, vectorsOf: Params -> seq<Vector>, id: nat)
    requires FreshIds(es) && Deterministic(es, vectorsOf) && id in MemoRun(es).results
    ensures AskedWith(es, id).Some? && MemoRun(es).results[id].vectors == vectorsOf(AskedWith(es, id).value)
  {
    MemoRunKeepsInv(es, vectorsOf);
  }

  /** Usage handed out: the answers' own, and nothing for a hit. */
  function Charged(es: seq<Event>): TokenUsage {
    if es == [] then ZERO_USAGE
    else
      var before, last := es[..|es| - 1], es[|es| - 1];
      var m, m' := MemoRun(before), MemoRun(es);
      if last.Embed? && last.id in m'.results && last.id !in m.results
      then AddUsage(Charged(before), m'.results[last.id].usage)
      else if last.Answered? && last.id in m.inFlight then AddUsage(Charged(before), m'.results[last.id].usage)
      else Charged(before)
  }

  /** Only the calls that reached the provider. */
  function Provided(es: seq<Event>): TokenUsage {
    if es == [] then ZERO_USAGE
    else
      var before, last := es[..|es| - 1], es[|es| - 1];
      if last.Answered? && last.id in MemoRun(before).inFlight
      then AddUsage(Provided(before), last.result.usage) else Provided(before)
  }

  lemma {:induction false} OnlyProviderCallsAreCharged(es: seq<Event>)
    ensures Charged(es) == Provided(es)
  {
    if es != [] {
      OnlyProviderCallsAreCharged(es[..|es| - 1]);
      AddZero(Charged(es[..|es| - 1]));
    }
  }

  /** The memo as an object. What it stores and what it hands out on a hit are copies: no caller
      holds the cached array. A vector itself is a value here. */
  class MemoizingGateway {
    var key: Option<Params>
    var stored: array<Vector>
    var inFlight: map<nat, Params>
    ghost var results: map<nat, Result>

    ghost function View(): Memo
      reads this, stored
    {
      Memo(if key.Some? then Some(Entry(key.value, stored[..])) else None, inFlight, results)
    }

    constructor ()
      ensures View() == EMPTY_MEMO && fresh(stored)
    {
      key, inFlight, results := None, map[], map[];
      stored := new Vector[0];
    }

    method Copy(vectors: array<Vector>) returns (copy: array<Vector>)
      ensures fresh(copy) && copy[..] == vectors[..]
    {
      copy := new Vector[vectors.Length](_ => []);
      for i := 0 to vectors.Length
        invariant forall j :: 0 <= j < i ==> copy[j] == vectors[j]
      {
        copy[i] := vectors[i];
      }
    }

    /** A hit hands out a copy and charges nothing; a miss goes to the provider. */
    method OnEmbed(id: nat, params: Params) returns (hit: Option<array<Vector>>)
      requires id !in inFlight && id !in results
      modifies this
      ensures View() == MemoStep(old(View()), Embed(id, params)) && stored == old(stored)
      ensures hit.Some? <==> Hits(old(View()), params)
      ensures hit.Some? ==> fresh(hit.value) && hit.value[..] == stored[..] && hit.value != stored
    {
      if key == Some(params) {
        var copy := Copy(stored);
        results := results[id := Result(stored[..], ZERO_USAGE)];
        return Some(copy);
      }
      inFlight := inFlight[id := params];
      hit := None;
    }

    /** The provider's own array goes to the caller; the memo keeps a copy. */
    method OnAnswered(id: nat, vectors: array<Vector>, usage: TokenUsage)
      requires id in inFlight
      modifies this
      ensures View() == MemoStep(old(View()), Answered(id, Result(vectors[..], usage)))
      ensures fresh(stored) && stored != vectors
    {
      var copy := Copy(vectors);
      stored, key := copy, Some(inFlight[id]);
      results := results[id := Result(vectors[..], usage)];
      inFlight := inFlight - {id};
    }

    method OnFailed(id: nat)
      modifies this`inFlight
      ensures View() == MemoStep(old(View()), Failed(id))
    {
      inFlight := inFlight - {id};
    }
  }
}
