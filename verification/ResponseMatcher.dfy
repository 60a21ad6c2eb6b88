/** Progress of one request towards its response, frame by frame. */
module ResponseMatcher {
  import opened Models
  import opened Frame
  import opened Protocol

  datatype MatchResult = Ignored | Accepted | Complete

  datatype Progress = Progress(frames: seq<seq<byte>>, index: nat, complete: bool)

  const START: Progress := Progress([], 0, false)

  predicate StartsWith(data: seq<byte>, prefix: seq<byte>) {
    |prefix| <= |data| && data[..|prefix|] == prefix
  }

  predicate AllZero(data: seq<byte>) {
    forall i | 0 <= i < |data| :: data[i] == 0
  }

  predicate OccursAt(data: seq<byte>, part: seq<byte>, i: int) {
    0 <= i <= |data| - |part| && data[i..i + |part|] == part
  }

  predicate Contains(data: seq<byte>, part: seq<byte>) {
    exists i | 0 <= i <= |data| - |part| :: OccursAt(data, part, i)
  }

  /** Python slicing clips at the end of the data. */
  function Clip(data: seq<byte>, lo: nat, hi: nat): seq<byte> {
    var h := if hi < |data| then hi else |data|;
    if lo <= h then data[lo..h] else []
  }

  predicate FieldsMatch(data: seq<byte>, fields: seq<(Offset, byte)>)
    requires |data| == FRAME_LENGTH
  {
    forall i | 0 <= i < |fields| :: data[fields[i].0] == fields[i].1
  }

  predicate AnyPrefix(data: seq<byte>, prefixes: seq<seq<byte>>) {
    exists i | 0 <= i < |prefixes| :: StartsWith(data, prefixes[i])
  }

  /** Whether a single frame completes the response. */
  predicate MatchesAtOnce(data: seq<byte>, spec: ResponseSpec)
    requires |data| == FRAME_LENGTH
  {
    data in spec.exactAlternatives ||
    match spec.kind
    case Exact => data == spec.exact
    case ValueByte => data[..2] == spec.prefix && data[2] in spec.allowedValues && AllZero(data[3..19])
    case ZeroPayload => data[..2] == spec.prefix && AllZero(data[2..19])
    case Prefix => StartsWith(data, spec.prefix)
    case PrefixSelector =>
      StartsWith(data, spec.prefix) && Clip(data, |spec.prefix|, |spec.prefix| + |spec.selector|) == spec.selector
    case Metadata => data[..2] == [0xab, 0x00] && Contains(data[2..19], [2, 2, 0, 1])
    case Fields => AnyPrefix(data, spec.allowedPrefixes) && FieldsMatch(data, spec.expectedFields)
    case Fragments => false
  }

  function FeedFragment(p: Progress, spec: ResponseSpec, data: seq<byte>): (Progress, MatchResult)
    requires |data| == FRAME_LENGTH
  {
    if data[0] != 0xab || p.index >= |spec.fragments| then (p, Ignored)
    else if data[1] == spec.fragments[p.index] then
      var done := p.index + 1 == |spec.fragments|;
      (Progress(p.frames + [data], p.index + 1, done), if done then Complete else Accepted)
    else if p.index > 0 && data[1] == spec.fragments[p.index - 1] then (p, Accepted)
    else (p, Ignored)
  }

  /** Offers one valid frame. */
  function Feed(p: Progress, spec: ResponseSpec, data: seq<byte>): (Progress, MatchResult)
    requires |data| == FRAME_LENGTH
  {
    if p.complete then (p, Ignored)
    else if MatchesAtOnce(data, spec) then (Progress(p.frames + [data], p.index, true), Complete)
    else if spec.kind == Fragments then FeedFragment(p, spec, data)
    else (p, Ignored)
  }

  /** The response matcher of one transaction. */
  class Matcher {
    const spec: ResponseSpec
    var frames: seq<seq<byte>>
    var fragmentIndex: nat
    var complete: bool

    ghost predicate Valid()
      reads this
    {
      !complete && spec.fragments != [] ==> fragmentIndex < |spec.fragments|
    }

    ghost function View(): Progress
      reads this
    {
      Progress(frames, fragmentIndex, complete)
    }

    constructor (spec: ResponseSpec)
      ensures this.spec == spec && Valid() && View() == START
    {
      this.spec := spec;
      frames, fragmentIndex, complete := [], 0, false;
    }

    method Offer(frame: seq<byte>) returns (r: Result<MatchResult, FrameError>)
      requires Valid()
      modifies this
      ensures Valid()
      ensures old(complete) ==> r == Ok(Ignored) && View() == old(View())
      ensures !old(complete) && !IsFrame(frame) ==> r.Err? && View() == old(View())
      ensures !old(complete) && IsFrame(frame) ==>
        r == Ok(Feed(old(View()), spec, frame).1) && View() == Feed(old(View()), spec, frame).0
    {
      if complete {
        return Ok(Ignored);
      }
      var data := ValidateFrame(frame);
      if data.Err? {
        return Err(data.error);
      }
      if spec.kind != Fragments || frame in spec.exactAlternatives {
        if !MatchesAtOnce(frame, spec) {
          return Ok(Ignored);
        }
        frames := frames + [frame];
        complete := true;
        return Ok(Complete);
      }
      var m := OfferFragment(frame);
      return Ok(m);
    }

    method OfferFragment(data: seq<byte>) returns (m: MatchResult)
      requires Valid() && !complete && |data| == FRAME_LENGTH
      modifies this
      ensures Valid()
      ensures (View(), m) == FeedFragment(old(View()), spec, data)
    {
      if data[0] != 0xab || spec.fragments == [] {
        return Ignored;
      }
      var fragment := data[1];
      if fragment == spec.fragments[fragmentIndex] {
        frames := frames + [data];
        fragmentIndex := fragmentIndex + 1;
        if fragmentIndex == |spec.fragments| {
          complete := true;
          return Complete;
        }
        return Accepted;
      }
      if fragmentIndex > 0 && fragment == spec.fragments[fragmentIndex - 1] {
        return Accepted;
      }
      return Ignored;
    }
  }

  // ---- multipart responses ----

  function FeedAll(p: Progress, spec: ResponseSpec, stream: seq<seq<byte>>): Progress
    requires forall i | 0 <= i < |stream| :: |stream[i]| == FRAME_LENGTH
  {
    if stream == [] then p
    else Feed(FeedAll(p, spec, stream[..|stream| - 1]), spec, stream[|stream| - 1]).0
  }

  /** How often feeding the stream reports completion. */
  function Completions(p: Progress, spec: ResponseSpec, stream: seq<seq<byte>>): nat
    requires forall i | 0 <= i < |stream| :: |stream[i]| == FRAME_LENGTH
  {
    if stream == [] then 0
    else
      var before := stream[..|stream| - 1];
      Completions(p, spec, before)
      + if Feed(FeedAll(p, spec, before), spec, stream[|stream| - 1]).1 == Complete then 1 else 0
  }

  /** Positions, in order, at which the stream carries the given fragments. */
  predicate Carries(stream: seq<seq<byte>>, fragments: seq<byte>, at: seq<nat>)
    requires forall i | 0 <= i < |stream| :: |stream[i]| == FRAME_LENGTH
  {
    && |at| == |fragments|
    && (forall k | 0 <= k < |at| :: at[k] < |stream| && stream[at[k]][..2] == [0xab, fragments[k]])
    && (forall j, k | 0 <= j < k < |at| :: at[j] < at[k])
  }

  predicate Multipart(spec: ResponseSpec) {
    spec.kind == Fragments && spec.exactAlternatives == [] && spec.fragments != []
  }

  predicate Frames(stream: seq<seq<byte>>) {
    forall i | 0 <= i < |stream| :: |stream[i]| == FRAME_LENGTH
  }

  /** The frame carries the next fragment the matcher waits for. */
  predicate Next(p: Progress, spec: ResponseSpec, data: seq<byte>)
    requires |data| == FRAME_LENGTH
  {
    !p.complete && p.index < |spec.fragments| && data[..2] == [0xab, spec.fragments[p.index]]
  }

  lemma MultipartStep(p: Progress, spec: ResponseSpec, data: seq<byte>)
    requires Multipart(spec) && |data| == FRAME_LENGTH
    ensures var q := Feed(p, spec, data).0;
      if Next(p, spec, data) then q == Progress(p.frames + [data], p.index + 1, p.index + 1 == |spec.fragments|)
      else q == p
  {
    assert data[..2] == [data[0], data[1]];
  }

  predicate Collected(p: Progress, spec: ResponseSpec, stream: seq<seq<byte>>, at: seq<nat>)
    requires Frames(stream)
  {
    && p.index <= |spec.fragments| && |p.frames| == p.index
    && (p.complete <==> p.index == |spec.fragments|)
    && Carries(stream, spec.fragments[..p.index], at)
    && (forall k | 0 <= k < p.index :: p.frames[k] == stream[at[k]])
  }

  /** After a stream the matcher has collected exactly one frame for each fragment it
    * has passed, in the documented order, and they lie in order in the stream. */
  lemma {:induction false} CollectsThePrefix(spec: ResponseSpec, stream: seq<seq<byte>>) returns (at: seq<nat>)
    requires Multipart(spec) && Frames(stream)
    ensures Collected(FeedAll(START, spec, stream), spec, stream, at)
  {
    if stream == [] {
      at := [];
    } else {
      var n := |stream| - 1;
      at := CollectsThePrefix(spec, stream[..n]);
      var q := FeedAll(START, spec, stream[..n]);
      MultipartStep(q, spec, stream[n]);
      at := ExtendCollected(q, spec, stream, at);
    }
  }

  lemma ExtendCollected(q: Progress, spec: ResponseSpec, stream: seq<seq<byte>>, at: seq<nat>) returns (at': seq<nat>)
    requires Multipart(spec) && Frames(stream) && stream != []
    requires Collected(q, spec, stream[..|stream| - 1], at)
    ensures Collected(Feed(q, spec, stream[|stream| - 1]).0, spec, stream, at')
  {
    var n := |stream| - 1;
    MultipartStep(q, spec, stream[n]);
    at' := at;
    if Next(q, spec, stream[n]) {
      at' := at + [n];
      assert spec.fragments[..q.index + 1] == spec.fragments[..q.index] + [spec.fragments[q.index]];
    }
  }

  lemma CarriesWithoutLast(stream: seq<seq<byte>>, fragments: seq<byte>, at: seq<nat>)
    requires Frames(stream) && fragments != [] && Carries(stream, fragments, at)
    ensures stream != []
    ensures var last, n := |stream| - 1, |fragments| - 1;
      if at[n] == last then Carries(stream[..last], fragments[..n], at[..n]) && stream[last][..2] == [0xab, fragments[n]]
      else Carries(stream[..last], fragments, at)
  {
    var last, n := |stream| - 1, |fragments| - 1;
    assert at[n] < |stream|;
    forall k | 0 <= k < n
      ensures at[k] < last
    {
      assert at[k] < at[n];
    }
  }

  lemma GreedyStep(spec: ResponseSpec, q: Progress, data: seq<byte>, n: nat)
    requires Multipart(spec) && |data| == FRAME_LENGTH && 0 < n <= |spec.fragments|
    requires q.complete ==> q.index == |spec.fragments|
    requires q.index >= n || (q.index == n - 1 && data[..2] == [0xab, spec.fragments[n - 1]])
    ensures Feed(q, spec, data).0.index >= n
  {
    MultipartStep(q, spec, data);
  }

  /** No stream carries more of the fragment list than the matcher has accepted. */
  lemma {:induction false} AcceptsGreedily(spec: ResponseSpec, stream: seq<seq<byte>>, n: nat, at: seq<nat>)
    requires Multipart(spec) && Frames(stream) && n <= |spec.fragments|
    requires Carries(stream, spec.fragments[..n], at)
    ensures FeedAll(START, spec, stream).index >= n
  {
    if n > 0 {
      CarriesWithoutLast(stream, spec.fragments[..n], at);
      var last := |stream| - 1;
      if at[n - 1] == last {
        assert spec.fragments[..n - 1] == spec.fragments[..n][..n - 1];
        AcceptsGreedily(spec, stream[..last], n - 1, at[..n - 1]);
      } else {
        AcceptsGreedily(spec, stream[..last], n, at);
      }
      var found := CollectsThePrefix(spec, stream[..last]);
      GreedyStep(spec, FeedAll(START, spec, stream[..last]), stream[last], n);
    }
  }

  /** The matcher completes on a stream exactly when the documented fragments occur in
    * it in order, whatever lies between them, and it reports completion once. */
  lemma MultipartIsSubsequenceMatching(spec: ResponseSpec, stream: seq<seq<byte>>)
    requires Multipart(spec) && Frames(stream)
    ensures FeedAll(START, spec, stream).complete <==> exists at: seq<nat> :: Carries(stream, spec.fragments, at)
    ensures Completions(START, spec, stream) == if FeedAll(START, spec, stream).complete then 1 else 0
  {
    var found := CollectsThePrefix(spec, stream);
    assert spec.fragments[..|spec.fragments|] == spec.fragments;
    if at: seq<nat> :| Carries(stream, spec.fragments, at) {
      AcceptsGreedily(spec, stream, |spec.fragments|, at);
    }
    CompletesOnce(START, spec, stream);
  }

  /** Any request, multipart or not, completes at most once. */
  lemma {:induction false} CompletesOnce(p: Progress, spec: ResponseSpec, stream: seq<seq<byte>>)
    requires !p.complete && Frames(stream)
    ensures Completions(p, spec, stream) == if FeedAll(p, spec, stream).complete then 1 else 0
  {
    if stream != [] {
      CompletesOnce(p, spec, stream[..|stream| - 1]);
    }
  }
}
