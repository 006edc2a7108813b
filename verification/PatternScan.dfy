/** The streaming secret scan: patterns are counted read by read, with an overlap
    carried from one read to the next. */
module PatternScan {
  import opened Common
  import opened Utf8

  /** One call of `Read::read`. */
  datatype Read = Data(bytes: Bytes) | Failure

  /** How often the pattern starts at a position from `lo` up to `hi`. */
  function Starts(s: Bytes, pattern: Bytes, lo: nat, hi: nat): nat
    requires lo <= hi
    decreases hi - lo
  {
    if lo == hi then 0
    else Starts(s, pattern, lo, hi - 1) + if At(s, pattern, hi - 1) then 1 else 0
  }

  /** The occurrences, overlapping ones included. */
  function Occurrences(s: Bytes, pattern: Bytes): nat {
    Starts(s, pattern, 0, |s|)
  }

  lemma {:induction false} StartsInParts(s: Bytes, pattern: Bytes, lo: nat, mid: nat, hi: nat)
    requires lo <= mid <= hi
    ensures Starts(s, pattern, lo, hi) == Starts(s, pattern, lo, mid) + Starts(s, pattern, mid, hi)
    decreases hi - mid
  {
    if mid < hi {
      StartsInParts(s, pattern, lo, mid, hi - 1);
    }
  }

  /** The same positions match in two sequences, one shifted against the other. */
  lemma {:induction false} StartsShifted(s: Bytes, t: Bytes, pattern: Bytes, shift: nat, lo: nat, hi: nat)
    requires lo <= hi
    requires forall i | lo <= i < hi :: At(s, pattern, i + shift) <==> At(t, pattern, i)
    ensures Starts(s, pattern, lo + shift, hi + shift) == Starts(t, pattern, lo, hi)
    decreases hi - lo
  {
    if lo < hi {
      StartsShifted(s, t, pattern, shift, lo, hi - 1);
    }
  }

  lemma {:induction false} NoStarts(s: Bytes, pattern: Bytes, lo: nat, hi: nat)
    requires lo <= hi && forall i | lo <= i < hi :: !At(s, pattern, i)
    ensures Starts(s, pattern, lo, hi) == 0
    decreases hi - lo
  {
    if lo < hi {
      NoStarts(s, pattern, lo, hi - 1);
    }
  }

  /** The bytes carried over: one fewer than the pattern has, or all there are. */
  function Carried(s: Bytes, pattern: Bytes): Bytes
    requires pattern != []
  {
    s[|s| - Min(|pattern| - 1, |s|)..]
  }

  /** Up to the carried bytes, the whole matches where what was seen matches. */
  lemma SeenPart(seen: Bytes, chunk: Bytes, pattern: Bytes, cut: nat)
    requires pattern != [] && cut == |seen| - Min(|pattern| - 1, |seen|)
    ensures Starts(seen + chunk, pattern, 0, cut) == Occurrences(seen, pattern)
  {
    var whole := seen + chunk;
    forall i | 0 <= i < cut ensures At(whole, pattern, i + 0) <==> At(seen, pattern, i) {
      assert whole[i..i + |pattern|] == seen[i..i + |pattern|];
    }
    StartsShifted(whole, seen, pattern, 0, 0, cut);
    NoStarts(seen, pattern, cut, |seen|);
    StartsInParts(seen, pattern, 0, cut, |seen|);
  }

  /** From the carried bytes on, the whole matches where the window matches. */
  lemma WindowPart(whole: Bytes, pattern: Bytes, cut: nat)
    requires pattern != [] && cut <= |whole|
    ensures Starts(whole, pattern, cut, |whole|) == Occurrences(whole[cut..], pattern)
  {
    var window := whole[cut..];
    forall i | 0 <= i < |window| ensures At(whole, pattern, i + cut) <==> At(window, pattern, i) {
      if i + |pattern| <= |window| {
        assert whole[i + cut..i + cut + |pattern|] == window[i..i + |pattern|];
      }
    }
    StartsShifted(whole, window, pattern, cut, 0, |window|);
  }

  /** What a new chunk adds is what the carried bytes followed by the chunk contain:
      nothing is missed at the seam and nothing is counted twice. */
  lemma SeamIsExact(seen: Bytes, chunk: Bytes, pattern: Bytes)
    requires pattern != []
    ensures Occurrences(seen + chunk, pattern)
         == Occurrences(seen, pattern) + Occurrences(Carried(seen, pattern) + chunk, pattern)
  {
    var whole := seen + chunk;
    var cut := |seen| - Min(|pattern| - 1, |seen|);
    assert Carried(seen, pattern) + chunk == whole[cut..];
    SeenPart(seen, chunk, pattern, cut);
    WindowPart(whole, pattern, cut);
    StartsInParts(whole, pattern, 0, cut, |whole|);
  }

  lemma CarriedOfWindow(seen: Bytes, chunk: Bytes, pattern: Bytes)
    requires pattern != []
    ensures Carried(Carried(seen, pattern) + chunk, pattern) == Carried(seen + chunk, pattern)
  {
    var whole, window := seen + chunk, Carried(seen, pattern) + chunk;
    assert window == whole[|whole| - |window|..];
  }

  /** Everything read before the end of input or the first failure. */
  function Input(calls: seq<Read>): Bytes {
    if calls == [] || calls[0].Failure? || calls[0].bytes == [] then [] else calls[0].bytes + Input(calls[1..])
  }

  predicate Fails(calls: seq<Read>) {
    calls != [] && (calls[0].Failure? || (calls[0].bytes != [] && Fails(calls[1..])))
  }

  method CountPattern(bytes: Bytes, pattern: Bytes) returns (count: nat)
    requires pattern != []
    ensures count == Occurrences(bytes, pattern)
  {
    count := 0;
    for i := 0 to |bytes|
      invariant count == Starts(bytes, pattern, 0, i)
    {
      if At(bytes, pattern, i) {
        count := count + 1;
      }
    }
  }

  /** The state kept for one pattern after `seen` was read. */
  predicate Counted(count: U64, overlap: Bytes, pattern: Bytes, seen: Bytes) {
    pattern != [] && overlap == Carried(seen, pattern) && count == Min(Occurrences(seen, pattern), U64_MAX)
  }

  lemma NothingCounted(pattern: Bytes)
    requires pattern != []
    ensures Counted(0, [], pattern, [])
  {}

  /** One pattern meets one more chunk. */
  method ScanChunk(count: U64, overlap: Bytes, pattern: Bytes, ghost seen: Bytes, chunk: Bytes)
      returns (total: U64, retained: Bytes)
    requires Counted(count, overlap, pattern, seen)
    ensures Counted(total, retained, pattern, seen + chunk)
  {
    SeamIsExact(seen, chunk, pattern);
    CarriedOfWindow(seen, chunk, pattern);
    var window := overlap + chunk;
    var found := CountPattern(window, pattern);
    total := SaturatingAdd(count, found);
    retained := window[|window| - Min(|pattern| - 1, |window|)..];
  }

  predicate Tally(counts: seq<U64>, overlaps: seq<Bytes>, patterns: seq<Bytes>, seen: Bytes) {
    |counts| == |overlaps| == |patterns|
    && forall i | 0 <= i < |patterns| :: Counted(counts[i], overlaps[i], patterns[i], seen)
  }

  /** `count_patterns_reader`: for every pattern, the number of occurrences in all that
      was read, however it was cut into reads. */
  method CountPatternsReader(calls: seq<Read>, patterns: seq<Bytes>) returns (result: Option<seq<U64>>)
    ensures result.None? <==> [] in patterns || Fails(calls)
    ensures result.Some? ==>
              && |result.value| == |patterns|
              && forall i | 0 <= i < |patterns| ::
                   result.value[i] == Min(Occurrences(Input(calls), patterns[i]), U64_MAX)
  {
    hide Occurrences;
    if [] in patterns {
      return None;
    }
    var overlaps: seq<Bytes> := seq(|patterns|, _ => []);
    var counts: seq<U64> := seq(|patterns|, _ => 0);
    forall i | 0 <= i < |patterns| ensures Counted(counts[i], overlaps[i], patterns[i], []) {
      assert patterns[i] in patterns;
      NothingCounted(patterns[i]);
    }
    var rest := calls;
    ghost var seen: Bytes := [];
    while rest != []
      invariant Tally(counts, overlaps, patterns, seen)
      invariant Input(calls) == seen + Input(rest) && (Fails(calls) <==> Fails(rest))
      decreases |rest|
    {
      if rest[0].Failure? {
        return None;
      }
      var chunk := rest[0].bytes;
      if chunk == [] {
        assert seen + [] == seen;
        return Some(counts);
      }
      assert (seen + chunk) + Input(rest[1..]) == seen + (chunk + Input(rest[1..]));
      counts, overlaps := ScanAll(counts, overlaps, patterns, seen, chunk);
      seen := seen + chunk;
      rest := rest[1..];
    }
    assert seen + [] == seen;
    return Some(counts);
  }

  method ScanAll(counts: seq<U64>, overlaps: seq<Bytes>, patterns: seq<Bytes>, ghost seen: Bytes, chunk: Bytes)
      returns (totals: seq<U64>, retained: seq<Bytes>)
    requires Tally(counts, overlaps, patterns, seen)
    ensures Tally(totals, retained, patterns, seen + chunk)
  {
    hide Counted;
    totals, retained := counts, overlaps;
    for i := 0 to |patterns|
      invariant |totals| == |retained| == |patterns|
      invariant forall j | 0 <= j < i :: Counted(totals[j], retained[j], patterns[j], seen + chunk)
      invariant forall j | i <= j < |patterns| :: totals[j] == counts[j] && retained[j] == overlaps[j]
    {
      var total, overlap := ScanChunk(totals[i], retained[i], patterns[i], seen, chunk);
      totals, retained := totals[i := total], retained[i := overlap];
    }
  }
}
