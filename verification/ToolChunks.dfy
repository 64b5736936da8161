/** Assembling one response of an OpenAI-compatible provider from its chunks. */
module ToolChunks {
  import opened Protocol
  import opened Slots
  import opened Runtime

  /** The function part of a tool-call fragment. */
  datatype Piece = Piece(name: Option<string>, arguments: Option<string>)

  datatype ToolChunk = ToolChunk(index: nat, id: Option<string>, piece: Option<Piece>)

  /** What has been gathered for one index. */
  datatype Partial = Partial(id: Option<string>, name: Option<string>, arguments: string)

  const NOTHING := Partial(None, None, "")

  function Later(earlier: Option<string>, later: Option<string>): Option<string> {
    if later.Some? then later else earlier
  }

  function Added(p: Partial, chunk: ToolChunk): Partial {
    match chunk.piece
    case None => p.(id := Later(p.id, chunk.id))
    case Some(piece) =>
      Partial(Later(p.id, chunk.id), Later(p.name, piece.name),
              p.arguments + (if piece.arguments.Some? then piece.arguments.value else ""))
  }

  /** Reads an argument text; text that is not JSON counts as an empty object. */
  type Parser = string -> Option<Arguments>

  const EMPTY_OBJECT := Arguments("{}", None)

  /** The finished call; without a name there is none, without an id the name serves as id. */
  function Finished(parse: Parser, p: Partial): seq<ToolCall> {
    if p.name.None? then []
    else
      var arguments := parse(p.arguments);
      [ToolCall(if p.id.Some? then p.id.value else p.name.value, p.name.value,
                if arguments.Some? then arguments.value else EMPTY_OBJECT)]
  }

  // ---------------------------------------------------------------- reference definition

  /** The chunks of one index, in order. */
  function OfIndex(chunks: seq<ToolChunk>, index: nat): seq<ToolChunk> {
    if chunks == [] then []
    else OfIndex(chunks[..|chunks| - 1], index)
         + (if chunks[|chunks| - 1].index == index then [chunks[|chunks| - 1]] else [])
  }

  function Gathered(own: seq<ToolChunk>): Partial {
    if own == [] then NOTHING else Added(Gathered(own[..|own| - 1]), own[|own| - 1])
  }

  /** The calls of the indices below `bound`, by increasing index; each is made from its own chunks alone. */
  function CallsBelow(parse: Parser, chunks: seq<ToolChunk>, bound: nat): seq<ToolCall> {
    if bound == 0 then []
    else CallsBelow(parse, chunks, bound - 1) + Finished(parse, Gathered(OfIndex(chunks, bound - 1)))
  }

  ghost predicate Bounds(chunks: seq<ToolChunk>, bound: nat) {
    forall i :: 0 <= i < |chunks| ==> chunks[i].index < bound
  }

  // ---------------------------------------------------------------- the merge

  lemma OfIndexPush(chunks: seq<ToolChunk>, chunk: ToolChunk, index: nat)
    ensures OfIndex(chunks + [chunk], index) == OfIndex(chunks, index) + (if chunk.index == index then [chunk] else [])
  {
    assert (chunks + [chunk])[..|chunks|] == chunks;
  }

  lemma GatheredPush(own: seq<ToolChunk>, chunk: ToolChunk)
    ensures Gathered(own + [chunk]) == Added(Gathered(own), chunk)
  {
    assert (own + [chunk])[..|own|] == own;
  }

  ghost predicate Accumulated(byIndex: map<nat, Partial>, chunks: seq<ToolChunk>) {
    forall index: nat :: (if index in byIndex then byIndex[index] else NOTHING) == Gathered(OfIndex(chunks, index))
  }

  lemma AccumulatedPush(byIndex: map<nat, Partial>, chunks: seq<ToolChunk>, chunk: ToolChunk)
    requires Accumulated(byIndex, chunks)
    ensures var entry := if chunk.index in byIndex then byIndex[chunk.index] else NOTHING;
            Accumulated(byIndex[chunk.index := Added(entry, chunk)], chunks + [chunk])
  {
    hide Added, Gathered, OfIndex;
    var entry := if chunk.index in byIndex then byIndex[chunk.index] else NOTHING;
    var more := byIndex[chunk.index := Added(entry, chunk)];
    forall index: nat
      ensures (if index in more then more[index] else NOTHING) == Gathered(OfIndex(chunks + [chunk], index))
    {
      OfIndexPush(chunks, chunk, index);
      GatheredPush(OfIndex(chunks, index), chunk);
      assert OfIndex(chunks, index) + [] == OfIndex(chunks, index);
    }
  }

  lemma {:induction false} NoneOfIndex(chunks: seq<ToolChunk>, index: nat)
    requires Bounds(chunks, index)
    ensures OfIndex(chunks, index) == []
  {
    if chunks != [] { NoneOfIndex(chunks[..|chunks| - 1], index); }
  }

  method Accumulate(chunks: seq<ToolChunk>) returns (byIndex: map<nat, Partial>)
    ensures Accumulated(byIndex, chunks)
    ensures forall index :: index in byIndex ==> exists i :: 0 <= i < |chunks| && chunks[i].index == index
  {
    hide Gathered, OfIndex, Added;
    byIndex := map[];
    StartEmpty();
    for i := 0 to |chunks|
      invariant Accumulated(byIndex, chunks[..i])
      invariant forall index :: index in byIndex ==> exists j :: 0 <= j < i && chunks[j].index == index
    {
      AccumulatedPush(byIndex, chunks[..i], chunks[i]);
      assert chunks[..i] + [chunks[i]] == chunks[..i + 1];
      var entry := if chunks[i].index in byIndex then byIndex[chunks[i].index] else NOTHING;
      byIndex := byIndex[chunks[i].index := Added(entry, chunks[i])];
    }
    assert chunks[..|chunks|] == chunks;
  }

  lemma StartEmpty()
    ensures Accumulated(map[], [])
  {
  }

  lemma {:induction false} LeastExists(indices: set<nat>) returns (least: nat)
    requires indices != {}
    ensures least in indices && forall i :: i in indices ==> least <= i
  {
    var some :| some in indices;
    if indices == {some} {
      least := some;
    } else {
      var m := LeastExists(indices - {some});
      least := if some < m then some else m;
      assert forall i :: i in indices ==> i == some || i in indices - {some};
    }
  }

  /** Nothing lies between two neighbouring indices of the map. */
  lemma {:induction false} Skip(parse: Parser, chunks: seq<ToolChunk>, byIndex: map<nat, Partial>, from: nat, to: nat)
    requires Accumulated(byIndex, chunks) && from <= to
    requires forall i :: from <= i < to ==> i !in byIndex
    ensures CallsBelow(parse, chunks, to) == CallsBelow(parse, chunks, from)
  {
    hide Gathered, OfIndex;
    if from < to {
      Skip(parse, chunks, byIndex, from, to - 1);
      assert Finished(parse, Gathered(OfIndex(chunks, to - 1))) == [];
      assert CallsBelow(parse, chunks, to - 1) + [] == CallsBelow(parse, chunks, to - 1);
    }
  }

  /** Merges interleaved fragments into calls, by increasing index. */
  method CombineToolCallChunks(parse: Parser, chunks: seq<ToolChunk>) returns (calls: seq<ToolCall>)
    ensures AreTheCallsOf(parse, chunks, calls)
    ensures forall bound: nat :: Bounds(chunks, bound) ==> calls == CallsBelow(parse, chunks, bound)
  {
    hide Gathered, OfIndex, Finished, Accumulated, CallsBelow, AreTheCallsOf;
    var byIndex := Accumulate(chunks);
    var left := byIndex.Keys;
    var done: nat := 0;
    calls := [];
    NoCalls(parse, chunks);
    while left != {}
      invariant left <= byIndex.Keys
      invariant forall i :: i in byIndex ==> (i in left <==> done <= i)
      invariant calls == CallsBelow(parse, chunks, done)
      decreases |left|
    {
      ghost var least := LeastExists(left);
      var index: nat :| index in left && forall i :: i in left ==> index <= i;
      Skip(parse, chunks, byIndex, done, index);
      OneMoreIndex(parse, chunks, byIndex, index);
      calls := calls + Finished(parse, byIndex[index]);
      left := left - {index};
      done := index + 1;
    }
    forall bound: nat | Bounds(chunks, bound) ensures calls == CallsBelow(parse, chunks, bound) {
      if done <= bound {
        Skip(parse, chunks, byIndex, done, bound);
      } else {
        PastTheLast(parse, chunks, bound, done);
      }
    }
    ghost var bound := SomeBound(chunks);
    CallsAreTheNamed(parse, chunks, bound);
  }

  lemma NoCalls(parse: Parser, chunks: seq<ToolChunk>)
    ensures CallsBelow(parse, chunks, 0) == []
  {
  }

  lemma OneMoreIndex(parse: Parser, chunks: seq<ToolChunk>, byIndex: map<nat, Partial>, index: nat)
    requires Accumulated(byIndex, chunks) && index in byIndex
    ensures CallsBelow(parse, chunks, index + 1) == CallsBelow(parse, chunks, index) + Finished(parse, byIndex[index])
  {
  }

  lemma {:induction false} PastTheLast(parse: Parser, chunks: seq<ToolChunk>, from: nat, to: nat)
    requires Bounds(chunks, from) && from <= to
    ensures CallsBelow(parse, chunks, to) == CallsBelow(parse, chunks, from)
  {
    hide OfIndex;
    if from < to {
      PastTheLast(parse, chunks, from, to - 1);
      NoneOfIndex(chunks, to - 1);
      assert CallsBelow(parse, chunks, to - 1) + [] == CallsBelow(parse, chunks, to - 1);
    }
  }

  // ---------------------------------------------------------------- what a call is, in terms of the chunks

  predicate GivesName(chunk: ToolChunk, index: nat) {
    chunk.index == index && chunk.piece.Some? && chunk.piece.value.name.Some?
  }

  predicate GivesId(chunk: ToolChunk, index: nat) {
    chunk.index == index && chunk.id.Some?
  }

  ghost predicate Named(chunks: seq<ToolChunk>, index: nat) {
    exists i :: 0 <= i < |chunks| && GivesName(chunks[i], index)
  }

  ghost predicate Identified(chunks: seq<ToolChunk>, index: nat) {
    exists i :: 0 <= i < |chunks| && GivesId(chunks[i], index)
  }

  /** The name in the last chunk that gives one for this index. */
  ghost predicate LastName(chunks: seq<ToolChunk>, index: nat, name: string) {
    exists i ::
      && 0 <= i < |chunks| && GivesName(chunks[i], index) && chunks[i].piece.value.name.value == name
      && forall j :: i < j < |chunks| ==> !GivesName(chunks[j], index)
  }

  /** The id in the last chunk that gives one for this index. */
  ghost predicate LastGivenId(chunks: seq<ToolChunk>, index: nat, id: string) {
    exists i ::
      && 0 <= i < |chunks| && GivesId(chunks[i], index) && chunks[i].id.value == id
      && forall j :: i < j < |chunks| ==> !GivesId(chunks[j], index)
  }

  /** The argument fragments of one index, laid end to end. */
  function FragmentsOf(chunks: seq<ToolChunk>, index: nat): string {
    if chunks == [] then ""
    else if chunks[0].index == index && chunks[0].piece.Some? && chunks[0].piece.value.arguments.Some?
    then chunks[0].piece.value.arguments.value + FragmentsOf(chunks[1..], index)
    else FragmentsOf(chunks[1..], index)
  }

  /** The name is the last one given for the index, the id the last one given or else that name, and the arguments
      are what the fragments say together, or an empty object if that cannot be read. */
  ghost predicate IsCallOf(parse: Parser, chunks: seq<ToolChunk>, index: nat, call: ToolCall) {
    && LastName(chunks, index, call.name)
    && (if Identified(chunks, index) then LastGivenId(chunks, index, call.id) else call.id == call.name)
    && (match parse(FragmentsOf(chunks, index))
        case Some(arguments) => call.arguments == arguments
        case None => call.arguments == EMPTY_OBJECT)
  }

  ghost predicate Increasing(indices: seq<nat>) {
    forall i, j :: 0 <= i < j < |indices| ==> indices[i] < indices[j]
  }

  /** One call for each index that has a name, by increasing index. */
  ghost predicate AreTheCallsOf(parse: Parser, chunks: seq<ToolChunk>, calls: seq<ToolCall>) {
    exists indices :: OneCallPerName(parse, chunks, indices, calls)
  }

  ghost predicate OneCallPerName(parse: Parser, chunks: seq<ToolChunk>, indices: seq<nat>, calls: seq<ToolCall>) {
    && Increasing(indices) && (forall index: nat :: index in indices <==> Named(chunks, index))
    && |calls| == |indices|
    && forall k :: 0 <= k < |calls| ==> IsCallOf(parse, chunks, indices[k], calls[k])
  }

  lemma {:induction false} FragmentsPush(chunks: seq<ToolChunk>, chunk: ToolChunk, index: nat)
    ensures FragmentsOf(chunks + [chunk], index) == FragmentsOf(chunks, index) + FragmentsOf([chunk], index)
  {
    if chunks == [] {
      assert chunks + [chunk] == [chunk];
    } else {
      FragmentsPush(chunks[1..], chunk, index);
      assert (chunks + [chunk])[1..] == chunks[1..] + [chunk];
    }
  }

  lemma FragmentOfOne(chunk: ToolChunk, index: nat, p: Partial)
    ensures p.arguments + FragmentsOf([chunk], index)
         == (if chunk.index == index then Added(p, chunk) else p).arguments
  {
    assert [chunk][1..] == [] && p.arguments + "" == p.arguments;
    assert forall fragment: string :: fragment + FragmentsOf([], index) == fragment;
  }

  lemma GatheredNext(chunks: seq<ToolChunk>, chunk: ToolChunk, index: nat)
    ensures var before := Gathered(OfIndex(chunks, index));
            Gathered(OfIndex(chunks + [chunk], index)) == if chunk.index == index then Added(before, chunk) else before
  {
    hide Gathered, OfIndex, Added;
    OfIndexPush(chunks, chunk, index);
    GatheredPush(OfIndex(chunks, index), chunk);
    assert OfIndex(chunks, index) + [] == OfIndex(chunks, index);
  }

  lemma {:induction false} GatheredArguments(chunks: seq<ToolChunk>, index: nat)
    ensures Gathered(OfIndex(chunks, index)).arguments == FragmentsOf(chunks, index)
  {
    hide Added;
    if chunks != [] {
      hide Gathered, OfIndex;
      var n := |chunks| - 1;
      GatheredArguments(chunks[..n], index);
      GatheredNext(chunks[..n], chunks[n], index);
      FragmentsPush(chunks[..n], chunks[n], index);
      FragmentOfOne(chunks[n], index, Gathered(OfIndex(chunks[..n], index)));
      assert chunks == chunks[..n] + [chunks[n]];
    }
  }

  lemma NameNext(chunks: seq<ToolChunk>, chunk: ToolChunk, index: nat)
    ensures Named(chunks + [chunk], index) <==> Named(chunks, index) || GivesName(chunk, index)
    ensures GivesName(chunk, index) ==> LastName(chunks + [chunk], index, chunk.piece.value.name.value)
    ensures !GivesName(chunk, index) ==>
      forall name :: LastName(chunks, index, name) ==> LastName(chunks + [chunk], index, name)
  {
    var more := chunks + [chunk];
    assert forall i :: 0 <= i < |chunks| ==> more[i] == chunks[i];
    assert more[|chunks|] == chunk;
  }

  lemma IdNext(chunks: seq<ToolChunk>, chunk: ToolChunk, index: nat)
    ensures Identified(chunks + [chunk], index) <==> Identified(chunks, index) || GivesId(chunk, index)
    ensures GivesId(chunk, index) ==> LastGivenId(chunks + [chunk], index, chunk.id.value)
    ensures !GivesId(chunk, index) ==>
      forall id :: LastGivenId(chunks, index, id) ==> LastGivenId(chunks + [chunk], index, id)
  {
    var more := chunks + [chunk];
    assert forall i :: 0 <= i < |chunks| ==> more[i] == chunks[i];
    assert more[|chunks|] == chunk;
  }

  lemma {:induction false} GatheredName(chunks: seq<ToolChunk>, index: nat)
    ensures var p := Gathered(OfIndex(chunks, index));
            && (p.name.Some? <==> Named(chunks, index))
            && (p.name.Some? ==> LastName(chunks, index, p.name.value))
  {
    hide LastName;
    if chunks != [] {
      hide Gathered, OfIndex, Named;
      var n := |chunks| - 1;
      GatheredName(chunks[..n], index);
      GatheredNext(chunks[..n], chunks[n], index);
      NameNext(chunks[..n], chunks[n], index);
      assert chunks == chunks[..n] + [chunks[n]];
    }
  }

  lemma {:induction false} GatheredId(chunks: seq<ToolChunk>, index: nat)
    ensures var p := Gathered(OfIndex(chunks, index));
            && (p.id.Some? <==> Identified(chunks, index))
            && (p.id.Some? ==> LastGivenId(chunks, index, p.id.value))
  {
    hide LastGivenId;
    if chunks != [] {
      hide Gathered, OfIndex, Identified;
      var n := |chunks| - 1;
      GatheredId(chunks[..n], index);
      GatheredNext(chunks[..n], chunks[n], index);
      IdNext(chunks[..n], chunks[n], index);
      assert chunks == chunks[..n] + [chunks[n]];
    }
  }

  /** An index makes one call if it has a name, and none otherwise. */
  lemma FinishedIsItsCall(parse: Parser, chunks: seq<ToolChunk>, index: nat)
    ensures var calls := Finished(parse, Gathered(OfIndex(chunks, index)));
            && |calls| == (if Named(chunks, index) then 1 else 0)
            && (Named(chunks, index) ==> IsCallOf(parse, chunks, index, calls[0]))
  {
    hide Gathered, OfIndex, Named, Identified, LastName, LastGivenId, FragmentsOf;
    GatheredName(chunks, index);
    GatheredId(chunks, index);
    GatheredArguments(chunks, index);
  }

  lemma {:induction false} CallsBelowAreTheNamed(parse: Parser, chunks: seq<ToolChunk>, bound: nat)
    returns (indices: seq<nat>)
    ensures Increasing(indices)
    ensures forall index: nat :: index in indices <==> index < bound && Named(chunks, index)
    ensures |CallsBelow(parse, chunks, bound)| == |indices|
    ensures forall k :: 0 <= k < |indices| ==> IsCallOf(parse, chunks, indices[k], CallsBelow(parse, chunks, bound)[k])
  {
    hide Gathered, OfIndex, Finished, Named, IsCallOf;
    indices := [];
    if bound > 0 {
      var before := CallsBelowAreTheNamed(parse, chunks, bound - 1);
      FinishedIsItsCall(parse, chunks, bound - 1);
      indices := before;
      if Named(chunks, bound - 1) {
        indices := indices + [bound - 1];
      }
      assert forall k :: 0 <= k < |before| ==> before[k] in before;
    }
  }

  /** Every call is made from the chunks of its own index. */
  lemma CallsAreTheNamed(parse: Parser, chunks: seq<ToolChunk>, bound: nat)
    requires Bounds(chunks, bound)
    ensures AreTheCallsOf(parse, chunks, CallsBelow(parse, chunks, bound))
  {
    hide CallsBelow, IsCallOf;
    var indices := CallsBelowAreTheNamed(parse, chunks, bound);
    assert OneCallPerName(parse, chunks, indices, CallsBelow(parse, chunks, bound));
  }

  lemma {:induction false} SomeBound(chunks: seq<ToolChunk>) returns (bound: nat)
    ensures Bounds(chunks, bound)
  {
    if chunks == [] {
      bound := 0;
    } else {
      var n := |chunks| - 1;
      var before := SomeBound(chunks[..n]);
      bound := if before > chunks[n].index then before else chunks[n].index + 1;
      assert forall i :: 0 <= i < n ==> chunks[..n][i] == chunks[i];
    }
  }

  // ---------------------------------------------------------------- what does not matter

  /** Chunk lists that agree on every index's own chunks give the same calls, however they are interleaved. */
  lemma {:induction false} InterleavingDoesNotMatter(parse: Parser, a: seq<ToolChunk>, b: seq<ToolChunk>, bound: nat)
    requires forall index: nat :: OfIndex(a, index) == OfIndex(b, index)
    ensures CallsBelow(parse, a, bound) == CallsBelow(parse, b, bound)
  {
    hide OfIndex, Gathered, Finished;
    if bound > 0 { InterleavingDoesNotMatter(parse, a, b, bound - 1); }
  }

  lemma {:induction false} OfIndexConcat(a: seq<ToolChunk>, b: seq<ToolChunk>, index: nat)
    ensures OfIndex(a + b, index) == OfIndex(a, index) + OfIndex(b, index)
  {
    if b == [] {
      assert a + b == a;
    } else {
      var n := |b| - 1;
      assert (a + b)[..|a| + n] == a + b[..n];
      OfIndexConcat(a, b[..n], index);
    }
  }

  /** Neighbouring chunks of different indices can trade places. */
  lemma NeighboursSwap(parse: Parser, pre: seq<ToolChunk>, x: ToolChunk, y: ToolChunk, post: seq<ToolChunk>, bound: nat)
    requires x.index != y.index
    ensures CallsBelow(parse, pre + [x, y] + post, bound) == CallsBelow(parse, pre + [y, x] + post, bound)
  {
    hide OfIndex, CallsBelow;
    forall index: nat ensures OfIndex(pre + [x, y] + post, index) == OfIndex(pre + [y, x] + post, index) {
      OfIndexConcat(pre + [x, y], post, index);
      OfIndexConcat(pre + [y, x], post, index);
      OfIndexConcat(pre, [x, y], index);
      OfIndexConcat(pre, [y, x], index);
      OfPair(x, y, index);
      OfPair(y, x, index);
    }
    InterleavingDoesNotMatter(parse, pre + [x, y] + post, pre + [y, x] + post, bound);
  }

  lemma OfPair(x: ToolChunk, y: ToolChunk, index: nat)
    ensures OfIndex([x, y], index)
         == (if x.index == index then [x] else []) + (if y.index == index then [y] else [])
    ensures OfIndex([x], index) == if x.index == index then [x] else []
  {
    OfIndexPush([], x, index);
    OfIndexPush([x], y, index);
    assert [] + [x] == [x] && [x] + [y] == [x, y];
  }

  lemma {:induction false} GatheredOnward(a: seq<ToolChunk>, b: seq<ToolChunk>, rest: seq<ToolChunk>)
    requires Gathered(a) == Gathered(b)
    ensures Gathered(a + rest) == Gathered(b + rest)
  {
    hide Added;
    if rest == [] {
      assert a + rest == a && b + rest == b;
    } else {
      var n := |rest| - 1;
      GatheredOnward(a, b, rest[..n]);
      GatheredPush(a + rest[..n], rest[n]);
      GatheredPush(b + rest[..n], rest[n]);
      assert a + rest == a + rest[..n] + [rest[n]] && b + rest == b + rest[..n] + [rest[n]];
    }
  }

  function Fragment(index: nat, id: Option<string>, name: Option<string>, arguments: string): ToolChunk {
    ToolChunk(index, id, Some(Piece(name, Some(arguments))))
  }

  lemma SplitIsGatheredAlike(own: seq<ToolChunk>, index: nat, id: Option<string>, name: Option<string>, s: string,
                             t: string)
    ensures Gathered(own + [Fragment(index, id, name, s + t)])
         == Gathered(own + [Fragment(index, id, name, s), Fragment(index, None, None, t)])
  {
    var whole, head := Fragment(index, id, name, s + t), Fragment(index, id, name, s);
    var tail := Fragment(index, None, None, t);
    GatheredPush(own, whole);
    GatheredPush(own, head);
    GatheredPush(own + [head], tail);
    assert own + [head, tail] == own + [head] + [tail];
    Assoc(Gathered(own).arguments, s, t);
  }

  /** Where an argument fragment is cut does not matter. */
  lemma {:induction false} SplittingDoesNotMatter(parse: Parser, pre: seq<ToolChunk>, post: seq<ToolChunk>,
                                                  bound: nat, index: nat, id: Option<string>, name: Option<string>,
                                                  s: string, t: string)
    ensures CallsBelow(parse, pre + [Fragment(index, id, name, s + t)] + post, bound)
         == CallsBelow(parse, pre + [Fragment(index, id, name, s), Fragment(index, None, None, t)] + post, bound)
  {
    hide OfIndex, Gathered, Finished, Fragment;
    if bound > 0 {
      SplittingDoesNotMatter(parse, pre, post, bound - 1, index, id, name, s, t);
      SplitAtIndex(pre, post, bound - 1, index, id, name, s, t);
    }
  }

  lemma SplitAtIndex(pre: seq<ToolChunk>, post: seq<ToolChunk>, k: nat, index: nat, id: Option<string>,
                     name: Option<string>, s: string, t: string)
    ensures Gathered(OfIndex(pre + [Fragment(index, id, name, s + t)] + post, k))
         == Gathered(OfIndex(pre + [Fragment(index, id, name, s), Fragment(index, None, None, t)] + post, k))
  {
    hide OfIndex, Gathered;
    var whole, head := Fragment(index, id, name, s + t), Fragment(index, id, name, s);
    var tail := Fragment(index, None, None, t);
    OfIndexConcat(pre + [whole], post, k);
    OfIndexConcat(pre, [whole], k);
    OfPair(whole, whole, k);
    OfIndexConcat(pre + [head, tail], post, k);
    OfIndexConcat(pre, [head, tail], k);
    OfPair(head, tail, k);
    var own := OfIndex(pre, k);
    if k == index {
      SplitIsGatheredAlike(own, index, id, name, s, t);
      assert [head] + [tail] == [head, tail];
      GatheredOnward(own + [whole], own + [head, tail], OfIndex(post, k));
    }
  }

  // ---------------------------------------------------------------- the response stream

  /** One chunk of the response: its texts and its tool-call fragments; or the connection breaks. */
  datatype Arrival = Part(texts: seq<string>, toolChunks: seq<ToolChunk>) | Broken

  function Joined(texts: seq<string>): string {
    if texts == [] then "" else Joined(texts[..|texts| - 1]) + texts[|texts| - 1]
  }

  /** The text that the first `n` items bring. */
  function TextBy(out: seq<Polled>, n: nat): string
    requires n <= |out|
  {
    if n == 0 then ""
    else TextBy(out, n - 1) + (if out[n - 1].Item? && out[n - 1].event.TextDelta? then out[n - 1].event.delta else "")
  }

  function PhaseBy(out: seq<Polled>, n: nat): StreamPhase
    requires n <= |out|
  {
    if n == 0 then NotStarted
    else if out[n - 1].Item? && out[n - 1].event.MessageCompleted? then Closed else Open
  }

  /** All texts, and all fragments, up to where the connection breaks. */
  function AllText(response: seq<Arrival>): string {
    if response == [] then ""
    else AllText(response[..|response| - 1])
         + (if response[|response| - 1].Part? then Joined(response[|response| - 1].texts) else "")
  }

  function AllChunks(response: seq<Arrival>): seq<ToolChunk> {
    if response == [] then []
    else AllChunks(response[..|response| - 1])
         + (if response[|response| - 1].Part? then response[|response| - 1].toolChunks else [])
  }

  lemma {:induction false} JoinedConcat(a: seq<string>, b: seq<string>, text: string)
    ensures Joined(a + b) == Joined(a) + Joined(b)
    ensures Joined([text]) == text
  {
    assert [text][..0] == [] && "" + text == text;
    if b == [] {
      assert a + b == a && Joined(a) + "" == Joined(a);
    } else {
      var n := |b| - 1;
      assert (a + b)[..|a| + n] == a + b[..n];
      JoinedConcat(a, b[..n], text);
      Assoc(Joined(a), Joined(b[..n]), b[n]);
    }
  }

  /** A response brings the texts and the fragments of its parts, in order. */
  lemma {:induction false} ResponseConcat(a: seq<Arrival>, b: seq<Arrival>, texts: seq<string>, chunks: seq<ToolChunk>)
    ensures AllText(a + b) == AllText(a) + AllText(b) && AllChunks(a + b) == AllChunks(a) + AllChunks(b)
    ensures AllText([Part(texts, chunks)]) == Joined(texts) && AllChunks([Part(texts, chunks)]) == chunks
  {
    hide Joined;
    assert [Part(texts, chunks)][..0] == [] && "" + Joined(texts) == Joined(texts) && [] + chunks == chunks;
    if b == [] {
      assert a + b == a && AllText(a) + "" == AllText(a) && AllChunks(a) + [] == AllChunks(a);
    } else {
      var n := |b| - 1;
      assert (a + b)[..|a| + n] == a + b[..n];
      ResponseConcat(a, b[..n], texts, chunks);
      Assoc(AllText(a), AllText(b[..n]), if b[n].Part? then Joined(b[n].texts) else "");
      Assoc(AllChunks(a), AllChunks(b[..n]), if b[n].Part? then b[n].toolChunks else []);
    }
  }

  /** A start, then deltas. */
  ghost predicate Streaming(id: Id, out: seq<Polled>) {
    && |out| >= 1 && out[0] == Item(MessageStarted(id))
    && forall i :: 0 < i < |out| ==> out[i].Item? && out[i].event.TextDelta? && out[i].event.messageId == id
  }

  /** A start, deltas, then one completion or one error. */
  ghost predicate Shaped(id: Id, out: seq<Polled>) {
    && |out| >= 2 && Streaming(id, out[..|out| - 1])
    && (out[|out| - 1] == Polled.Error
        || (out[|out| - 1].Item? && out[|out| - 1].event.MessageCompleted? && out[|out| - 1].event.messageId == id))
  }

  /** Every event of a shaped stream meets the contract the runner relies on. */
  lemma MeetsTheContract(id: Id, out: seq<Polled>, i: nat)
    requires Shaped(id, out) && i < |out| && out[i].Item?
    ensures ProviderStream.WellFormed(id, PhaseBy(out, i), TextBy(out, i), out[i].event,
                                      PhaseBy(out, i + 1), TextBy(out, i + 1))
  {
    assert i < |out| - 1 ==> out[..|out| - 1][i] == out[i];
    assert i > 0 ==> out[..|out| - 1][i - 1] == out[i - 1];
    assert out[..|out| - 1][0] == out[0];
    assert TextBy(out, i) + "" == TextBy(out, i);
  }

  lemma {:induction false} TextPush(out: seq<Polled>, item: Polled, n: nat)
    requires n <= |out|
    ensures TextBy(out + [item], n) == TextBy(out, n)
  {
    if n > 0 { TextPush(out, item, n - 1); }
  }

  lemma TextGrows(out: seq<Polled>, item: Polled)
    ensures TextBy(out + [item], |out| + 1)
         == TextBy(out, |out|) + (if item.Item? && item.event.TextDelta? then item.event.delta else "")
  {
    TextPush(out, item, |out|);
  }

  lemma ArrivalPush(response: seq<Arrival>, i: nat)
    requires i < |response| && response[i].Part?
    ensures AllText(response[..i + 1]) == AllText(response[..i]) + Joined(response[i].texts)
    ensures AllChunks(response[..i + 1]) == AllChunks(response[..i]) + response[i].toolChunks
  {
    assert response[..i + 1][..i] == response[..i];
  }

  method JoinTexts(texts: seq<string>) returns (text: string)
    ensures text == Joined(texts)
  {
    text := "";
    for i := 0 to |texts|
      invariant text == Joined(texts[..i])
    {
      assert texts[..i + 1][..i] == texts[..i];
      text := text + texts[i];
    }
    assert texts[..|texts|] == texts;
  }

  /** Where the connection breaks. */
  ghost predicate BreaksAt(response: seq<Arrival>, k: nat) {
    k < |response| && response[k].Broken? && Broken !in response[..k]
  }

  /** The events of a response. The stream has the shape the runner needs, brings exactly the text of the chunks,
      up to where the connection breaks if it does, and ends with the merged calls, or there with an error. */
  method BuildProviderStream(parse: Parser, id: Id, response: seq<Arrival>) returns (out: seq<Polled>)
    ensures Shaped(id, out)
    ensures out[|out| - 1] == Polled.Error <==> Broken in response
    ensures Broken !in response ==> TextBy(out, |out|) == AllText(response)
    ensures forall k: nat :: BreaksAt(response, k) ==> TextBy(out, |out|) == AllText(response[..k])
    ensures Broken !in response ==> (out[|out| - 1].event.calls.Some? <==> AllChunks(response) != [])
    ensures Broken !in response && AllChunks(response) != [] ==>
      AreTheCallsOf(parse, AllChunks(response), out[|out| - 1].event.calls.value)
    ensures Broken !in response && AllChunks(response) != [] ==>
      forall bound: nat :: Bounds(AllChunks(response), bound) ==>
        out[|out| - 1].event.calls == Some(CallsBelow(parse, AllChunks(response), bound))
  {
    hide Joined, CallsBelow, Bounds, AllText, AllChunks, TextBy, AreTheCallsOf;
    out := [Item(MessageStarted(id))];
    var accumulator: seq<ToolChunk> := [];
    StreamStart(id);
    for i := 0 to |response|
      invariant Streaming(id, out) && Broken !in response[..i]
      invariant TextBy(out, |out|) == AllText(response[..i]) && accumulator == AllChunks(response[..i])
    {
      if response[i].Broken? {
        TextGrows(out, Polled.Error);
        assert TextBy(out, |out|) + "" == TextBy(out, |out|);
        assert forall k: nat :: BreaksAt(response, k) ==> k == i by { BreaksOnce(response, i); }
        return out + [Polled.Error];
      }
      ArrivalPush(response, i);
      var text := JoinTexts(response[i].texts);
      if response[i].texts != [] {
        TextGrows(out, Item(TextDelta(id, text)));
        out := out + [Item(TextDelta(id, text))];
      } else {
        NoTexts();
        assert AllText(response[..i]) + "" == AllText(response[..i]);
      }
      accumulator := accumulator + response[i].toolChunks;
    }
    assert response[..|response|] == response;
    var calls: Option<seq<ToolCall>> := None;
    if accumulator != [] {
      var combined := CombineToolCallChunks(parse, accumulator);
      calls := Some(combined);
    }
    TextGrows(out, Item(MessageCompleted(id, calls)));
    assert TextBy(out, |out|) + "" == TextBy(out, |out|);
    out := out + [Item(MessageCompleted(id, calls))];
  }

  lemma BreaksOnce(response: seq<Arrival>, i: nat)
    requires BreaksAt(response, i)
    ensures forall k: nat :: BreaksAt(response, k) ==> k == i
  {
    forall k: nat | BreaksAt(response, k) ensures k == i {
      assert forall m :: 0 <= m < i ==> response[..i][m] == response[m];
      assert forall m :: 0 <= m < k ==> response[..k][m] == response[m];
    }
  }

  lemma NoTexts()
    ensures Joined([]) == ""
  {
  }

  lemma StreamStart(id: Id)
    ensures Streaming(id, [Item(MessageStarted(id))]) && TextBy([Item(MessageStarted(id))], 1) == ""
    ensures AllText([]) == "" && AllChunks([]) == []
  {
    assert TextBy([Item(MessageStarted(id))], 0) == "";
  }
}
