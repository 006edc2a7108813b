/** The incremental validator of upstream event streams: bytes arrive in arbitrary
    chunks, complete frames are checked and re-emitted. */
module SseFraming {
  import opened Common
  import opened Utf8

  const LF: Byte := 10
  const CR: Byte := 13
  const COLON: Byte := 58
  const SPACE: Byte := 32
  const LFLF: Bytes := [LF, LF]
  const CRLFCRLF: Bytes := [CR, LF, CR, LF]
  const DATA: Bytes := [100, 97, 116, 97, 58]                // data:
  const EVENT: Bytes := [101, 118, 101, 110, 116, 58]        // event:
  const ID: Bytes := [105, 100, 58]                          // id:
  const RETRY: Bytes := [114, 101, 116, 114, 121, 58]        // retry:
  const DONE: Bytes := [91, 68, 79, 78, 69, 93]              // [DONE]
  const BUFFER_LIMIT := 256 * 1024 * 1024
  const FRAME_LIMIT := 1024 * 1024

  /** What JSON validation sees in a payload; `choices` says whether they pass. */
  datatype Chunk = Chunk(id: Bytes, model: Bytes, choices: bool)

  /** The library calls: `str::trim`, and JSON parsing with the field allowlists. */
  datatype Oracle = Oracle(trim: Bytes -> Bytes, chunk: Bytes -> Option<Chunk>)

  datatype Sse = Sse(buffer: Bytes, emitted: seq<Bytes>, done: bool, frames: nat, dataFrames: nat,
                     id: Option<Bytes>, model: Option<Bytes>)

  /** The state after a call, and whether it returned `Ok`. */
  datatype Fed = Fed(state: Sse, ok: bool)

  const FRESH := Sse([], [], false, 0, 0, None, None)

  // ---- Frames ----------------------------------------------------------------

  /** `windows(n).position(..)`, searching from `i`. */
  function FirstFrom(s: Bytes, pattern: Bytes, i: nat): (p: Option<nat>)
    requires pattern != []
    ensures p.Some? ==> i <= p.value && At(s, pattern, p.value)
                        && forall j | i <= j < p.value :: !At(s, pattern, j)
    ensures p.None? ==> forall j | i <= j :: !At(s, pattern, j)
    decreases |s| - i
  {
    if i + |pattern| > |s| then None
    else if At(s, pattern, i) then Some(i)
    else FirstFrom(s, pattern, i + 1)
  }

  function First(s: Bytes, pattern: Bytes): Option<nat>
    requires pattern != []
  {
    FirstFrom(s, pattern, 0)
  }

  datatype Delimiter = Delimiter(index: nat, length: nat)

  /** The frame boundary `feed` cuts at next. */
  function NextDelimiter(s: Bytes): (d: Option<Delimiter>)
    ensures d.Some? ==> d.value.length > 0 && d.value.index + d.value.length <= |s|
  {
    var lf, crlf := First(s, LFLF), First(s, CRLFCRLF);
    if lf.Some? && crlf.Some? && crlf.value < lf.value then Some(Delimiter(crlf.value, 4))
    else if lf.Some? then Some(Delimiter(lf.value, 2))
    else if crlf.Some? then Some(Delimiter(crlf.value, 4))
    else None
  }

  function StripCr(line: Bytes): Bytes {
    if line != [] && line[|line| - 1] == CR then line[..|line| - 1] else line
  }

  /** `str::lines`. */
  function Lines(s: Bytes): seq<Bytes>
    decreases |s|
  {
    if s == [] then []
    else
      var i := First(s, [LF]);
      if i.None? then [s] else [StripCr(s[..i.value])] + Lines(s[i.value + 1..])
  }

  function StripSpace(value: Bytes): Bytes {
    if value != [] && value[0] == SPACE then value[1..] else value
  }

  datatype Line = Ignored | DataLine(value: Bytes) | BadLine

  function Classify(o: Oracle, raw: Bytes): Line {
    var line := StripCr(raw);
    if line == [] || line[0] == COLON then Ignored
    else if DATA <= line then DataLine(StripSpace(line[|DATA|..]))
    else if EVENT <= line then
      var t := o.trim(line[|EVENT|..]);
      if |t| > 64 || exists i | 0 <= i < |t| :: !(0x20 <= t[i] <= 0x7E) then BadLine else Ignored
    else if ID <= line then
      if |o.trim(line[|ID|..])| > 128 || 0 in line[|ID|..] then BadLine else Ignored
    else if RETRY <= line then
      var t := o.trim(line[|RETRY|..]);
      if t == [] || |t| > 6 || exists i | 0 <= i < |t| :: !(0x30 <= t[i] <= 0x39) then BadLine else Ignored
    else BadLine
  }

  /** The values of the data lines, unless some line is not allowed. */
  function DataLines(o: Oracle, lines: seq<Bytes>): Option<seq<Bytes>> {
    if lines == [] then Some([])
    else
      var rest := DataLines(o, lines[..|lines| - 1]);
      match Classify(o, lines[|lines| - 1])
      case BadLine => None
      case Ignored => rest
      case DataLine(value) => if rest.None? then None else Some(rest.value + [value])
  }

  function Join(parts: seq<Bytes>): Bytes {
    if parts == [] then []
    else if |parts| == 1 then parts[0]
    else Join(parts[..|parts| - 1]) + [LF] + parts[|parts| - 1]
  }

  function Emit(data: Bytes): Bytes {
    DATA + [SPACE] + data + LFLF
  }

  predicate Clashes(known: Option<Bytes>, seen: Bytes) {
    known.Some? && known.value != seen
  }

  /** The part of `validate_frame` that sees the joined payload. */
  function Accept(o: Oracle, v: Sse, data: Bytes): Fed {
    var counted := v.(frames := SaturatingAdd(v.frames, 1));
    if o.trim(data) == DONE then Fed(counted.(done := true), true)
    else
      var w := counted.(dataFrames := SaturatingAdd(v.dataFrames, 1));
      match o.chunk(data)
      case None => Fed(w, false)
      case Some(c) =>
        if Clashes(v.id, c.id) || Clashes(v.model, c.model) then Fed(w, false)
        else
          var x := w.(id := Some(c.id), model := Some(c.model));
          if c.choices then Fed(x.(emitted := v.emitted + [Emit(data)]), true) else Fed(x, false)
  }

  function Validated(o: Oracle, v: Sse, frame: Bytes): (fed: Fed)
    ensures fed.state.buffer == v.buffer
  {
    if |frame| > FRAME_LIMIT || !Valid(frame) then Fed(v, false)
    else if frame == [] then Fed(v, true)
    else if v.done then Fed(v, false)
    else
      match DataLines(o, Lines(frame))
      case None => Fed(v, false)
      case Some(data) => if data == [] then Fed(v, true) else Accept(o, v, Join(data))
  }

  /** Takes complete frames off the buffer until none is left or one is refused. */
  function Drain(o: Oracle, v: Sse): Fed
    decreases |v.buffer|
  {
    match NextDelimiter(v.buffer)
    case None => Fed(v, true)
    case Some(d) =>
      var fed := Validated(o, v.(buffer := v.buffer[d.index + d.length..]), v.buffer[..d.index]);
      if fed.ok then Drain(o, fed.state) else fed
  }

  function Feeding(o: Oracle, v: Sse, bytes: Bytes): Fed {
    if |v.buffer| + |bytes| > BUFFER_LIMIT then Fed(v, false)
    else Drain(o, v.(buffer := v.buffer + bytes))
  }

  predicate AsciiWhitespace(b: Byte) {
    b in {9, 10, 12, 13, 32}
  }

  predicate Finished(v: Sse) {
    && (forall i | 0 <= i < |v.buffer| :: AsciiWhitespace(v.buffer[i]))
    && v.done && v.dataFrames >= 1
  }

  // ---- Chunk independence ------------------------------------------------------

  /** The delimiter that starts first also ends first. */
  lemma EarliestStartEndsFirst(s: Bytes, j: nat)
    requires At(s, LFLF, j) || At(s, CRLFCRLF, j)
    ensures NextDelimiter(s).Some?
    ensures var d := NextDelimiter(s).value;
            d.index <= j && d.index + d.length <= j + (if At(s, LFLF, j) then 2 else 4)
  {
    if At(s, LFLF, j) { assert s[j] == s[j + 1] == LF; }
    if First(s, CRLFCRLF).Some? {
      var c := First(s, CRLFCRLF).value;
      var w := s[c..c + 4];
      assert s[c] == w[0] && s[c + 1] == w[1] && s[c + 2] == w[2] && s[c + 3] == w[3];
    }
  }

  lemma AtInPrefix(x: Bytes, y: Bytes, pattern: Bytes, i: nat)
    requires i + |pattern| <= |x|
    ensures At(x + y, pattern, i) <==> At(x, pattern, i)
  {
    assert (x + y)[i..i + |pattern|] == x[i..i + |pattern|];
  }

  lemma FirstIsStable(x: Bytes, y: Bytes, pattern: Bytes)
    requires pattern != [] && First(x, pattern).Some?
    ensures First(x + y, pattern) == First(x, pattern)
  {
    var i := First(x, pattern).value;
    AtInPrefix(x, y, pattern, i);
    forall j | 0 <= j < i ensures !At(x + y, pattern, j) {
      AtInPrefix(x, y, pattern, j);
    }
    var k := First(x + y, pattern).value;
    AtInPrefix(x, y, pattern, Min(i, k));
  }

  /** Bytes that arrive later never move a boundary that is already there. */
  lemma DelimiterIsStable(x: Bytes, y: Bytes)
    requires NextDelimiter(x).Some?
    ensures NextDelimiter(x + y) == NextDelimiter(x)
  {
    var s := x + y;
    if First(x, LFLF).Some? { FirstIsStable(x, y, LFLF); }
    if First(x, CRLFCRLF).Some? { FirstIsStable(x, y, CRLFCRLF); }
    if First(x, LFLF).None? && First(s, LFLF).Some? {
      var l := First(s, LFLF).value;
      if l + 2 <= |x| { AtInPrefix(x, y, LFLF, l); }
    }
    if First(x, CRLFCRLF).None? && First(s, CRLFCRLF).Some? {
      var c, l := First(s, CRLFCRLF).value, First(x, LFLF).value;
      if c + 4 <= |x| { AtInPrefix(x, y, CRLFCRLF, c); }
      EarliestStartEndsFirst(s, l);
    }
  }

  /** Validation of a frame does not look at the buffer. */
  lemma ValidationIgnoresBuffer(o: Oracle, v: Sse, b: Bytes, frame: Bytes)
    ensures Validated(o, v.(buffer := b), frame)
         == Fed(Validated(o, v, frame).state.(buffer := b), Validated(o, v, frame).ok)
  {}

  /** Draining, then appending and draining again, is draining the whole. */
  lemma {:induction false} DrainInTwo(o: Oracle, v: Sse, y: Bytes)
    ensures var part := Drain(o, v);
            var all := Drain(o, v.(buffer := v.buffer + y));
            var rest := part.state.(buffer := part.state.buffer + y);
            all == if part.ok then Drain(o, rest) else Fed(rest, false)
    ensures |Drain(o, v).state.buffer| <= |v.buffer|
    decreases |v.buffer|
  {
    hide Validated, NextDelimiter;
    var x := v.buffer;
    var d := NextDelimiter(x);
    if d.Some? {
      DelimiterIsStable(x, y);
      var cut := d.value.index + d.value.length;
      assert (x + y)[..d.value.index] == x[..d.value.index];
      assert (x + y)[cut..] == x[cut..] + y;
      var small := v.(buffer := x[cut..]);
      ValidationIgnoresBuffer(o, small, x[cut..] + y, x[..d.value.index]);
      var fed := Validated(o, small, x[..d.value.index]);
      if fed.ok {
        DrainInTwo(o, fed.state, y);
      }
    }
  }

  /** Feeding chunk after chunk, until one is refused. */
  function FeedAll(o: Oracle, v: Sse, chunks: seq<Bytes>): Fed
    decreases |chunks|
  {
    if chunks == [] then Fed(v, true)
    else
      var fed := Feeding(o, v, chunks[0]);
      if fed.ok then FeedAll(o, fed.state, chunks[1..]) else fed
  }

  function Concat(chunks: seq<Bytes>): Bytes {
    if chunks == [] then [] else chunks[0] + Concat(chunks[1..])
  }

  predicate Drained(v: Sse) {
    NextDelimiter(v.buffer).None?
  }

  lemma {:induction false} DrainedAfter(o: Oracle, v: Sse)
    ensures Drain(o, v).ok ==> Drained(Drain(o, v).state)
    decreases |v.buffer|
  {
    hide Validated, NextDelimiter;
    var d := NextDelimiter(v.buffer);
    if d.Some? {
      var fed := Validated(o, v.(buffer := v.buffer[d.value.index + d.value.length..]), v.buffer[..d.value.index]);
      if fed.ok {
        DrainedAfter(o, fed.state);
      }
    }
  }

  /** However a byte sequence is split, it is accepted or refused alike, with the
      same frames emitted and the same identity; on success the whole state agrees. */
  lemma {:induction false} ChunkingDoesNotMatter(o: Oracle, v: Sse, chunks: seq<Bytes>)
    requires Drained(v) && |v.buffer| + |Concat(chunks)| <= BUFFER_LIMIT
    ensures var split := FeedAll(o, v, chunks); var whole := Feeding(o, v, Concat(chunks));
            && split.ok == whole.ok
            && (split.ok ==> split.state == whole.state)
            && split.state.(buffer := []) == whole.state.(buffer := [])
    decreases |chunks|
  {
    if chunks == [] {
      assert v.buffer + [] == v.buffer;
    } else {
      var rest := Concat(chunks[1..]);
      var w := v.(buffer := v.buffer + chunks[0]);
      assert v.buffer + Concat(chunks) == w.buffer + rest;
      DrainInTwo(o, w, rest);
      DrainedAfter(o, w);
      var fed := Feeding(o, v, chunks[0]);
      if fed.ok {
        ChunkingDoesNotMatter(o, fed.state, chunks[1..]);
      }
    }
  }

  /** The same result behind frames emitted earlier. */
  function Behind(e: seq<Bytes>, fed: Fed): Fed {
    Fed(fed.state.(emitted := e + fed.state.emitted), fed.ok)
  }

  /** Frames already emitted ride along untouched. */
  lemma EmittedIsCarried(o: Oracle, v: Sse, frame: Bytes, e: seq<Bytes>)
    ensures Validated(o, v.(emitted := e + v.emitted), frame) == Behind(e, Validated(o, v, frame))
  {
    hide DataLines, Lines, Join, Valid;
    forall data: Bytes ensures (e + v.emitted) + [Emit(data)] == e + (v.emitted + [Emit(data)]) {
    }
  }

  lemma {:induction false} DrainCarriesEmitted(o: Oracle, v: Sse, e: seq<Bytes>)
    ensures Drain(o, v.(emitted := e + v.emitted)) == Behind(e, Drain(o, v))
    decreases |v.buffer|
  {
    hide Validated, NextDelimiter;
    var d := NextDelimiter(v.buffer);
    if d.Some? {
      var w := v.(buffer := v.buffer[d.value.index + d.value.length..]);
      var frame := v.buffer[..d.value.index];
      EmittedIsCarried(o, w, frame, e);
      if Validated(o, w, frame).ok {
        DrainCarriesEmitted(o, Validated(o, w, frame).state, e);
      }
    }
  }

  /** What a validator knows after it was fed `received` in some chunks, the frames
      in `passed` having been taken out of it. */
  predicate Represents(o: Oracle, v: Sse, received: Bytes, passed: seq<Bytes>) {
    && v.emitted == [] && Drained(v)
    && Drain(o, FRESH.(buffer := received)) == Fed(v.(emitted := passed), true)
  }

  lemma FeedingContinues(o: Oracle, v: Sse, received: Bytes, passed: seq<Bytes>, bytes: Bytes)
    requires Represents(o, v, received, passed) && Feeding(o, v, bytes).ok
    ensures var fed := Feeding(o, v, bytes).state;
            Represents(o, fed.(emitted := []), received + bytes, passed + fed.emitted)
  {
    hide Drain;
    DrainInTwo(o, FRESH.(buffer := received), bytes);
    var w := v.(buffer := v.buffer + bytes);
    DrainCarriesEmitted(o, w, passed);
    assert passed + w.emitted == passed;
    DrainedAfter(o, w);
  }

  // ---- The validator accepts its own output ----------------------------------------

  function Payload(frame: Bytes): Bytes {
    if |frame| >= 8 then frame[6..|frame| - 2] else []
  }

  lemma PayloadOfEmit(data: Bytes)
    ensures Payload(Emit(data)) == data
  {}

  /** What is known of every frame the validator has emitted. */
  predicate Vouched(o: Oracle, v: Sse, frame: Bytes) {
    var data := Payload(frame);
    && frame == Emit(data) && Valid(data) && o.trim(data) != DONE
    && v.id.Some? && v.model.Some? && o.chunk(data) == Some(Chunk(v.id.value, v.model.value, true))
  }

  predicate Emittable(o: Oracle, v: Sse) {
    && (forall e | e in v.emitted :: Vouched(o, v, e))
    && v.dataFrames == Min(|v.emitted|, U64_MAX)
  }

  lemma StripCrValid(line: Bytes)
    requires Valid(line)
    ensures Valid(StripCr(line))
  {
    if line != [] && line[|line| - 1] == CR {
      DropLastAscii(line);
    }
  }

  lemma {:induction false} LinesValid(s: Bytes)
    requires Valid(s)
    ensures forall line | line in Lines(s) :: Valid(line)
    decreases |s|
  {
    if s != [] && First(s, [LF]).Some? {
      var i := First(s, [LF]).value;
      assert s[i..i + 1][0] == s[i];
      AsciiSplits(s[..i], LF, s[i + 1..]);
      assert s[..i] + [LF] + s[i + 1..] == s;
      StripCrValid(s[..i]);
      LinesValid(s[i + 1..]);
    }
  }

  lemma DataLineValid(o: Oracle, raw: Bytes)
    requires Valid(raw) && Classify(o, raw).DataLine?
    ensures Valid(Classify(o, raw).value)
  {
    var line := StripCr(raw);
    StripCrValid(raw);
    var value := line[|DATA|..];
    assert DATA + value == line;
    AsciiPrefix(DATA, value);
    if value != [] && value[0] == SPACE {
      DropAscii(value);
    }
  }

  lemma {:induction false} DataLinesValid(o: Oracle, lines: seq<Bytes>)
    requires forall line | line in lines :: Valid(line)
    requires DataLines(o, lines).Some?
    ensures forall value | value in DataLines(o, lines).value :: Valid(value)
    decreases |lines|
  {
    if lines != [] {
      var last := lines[|lines| - 1];
      DataLinesValid(o, lines[..|lines| - 1]);
      if Classify(o, last).DataLine? {
        DataLineValid(o, last);
      }
    }
  }

  lemma {:induction false} JoinValid(parts: seq<Bytes>)
    requires forall p | p in parts :: Valid(p)
    ensures Valid(Join(parts))
    decreases |parts|
  {
    if |parts| > 1 {
      JoinValid(parts[..|parts| - 1]);
      AsciiSplits(Join(parts[..|parts| - 1]), LF, parts[|parts| - 1]);
    }
  }

  lemma AcceptedIsEmittable(o: Oracle, v: Sse, data: Bytes)
    requires Emittable(o, v) && Valid(data) && Accept(o, v, data).ok
    ensures Emittable(o, Accept(o, v, data).state)
  {
    PayloadOfEmit(data);
  }

  lemma ValidatedIsEmittable(o: Oracle, v: Sse, frame: Bytes)
    requires Emittable(o, v) && Validated(o, v, frame).ok
    ensures Emittable(o, Validated(o, v, frame).state)
  {
    hide Emittable, Accept, DataLines, Lines, Join;
    if frame != [] {
      LinesValid(frame);
      var data := DataLines(o, Lines(frame)).value;
      DataLinesValid(o, Lines(frame));
      JoinValid(data);
      if data != [] {
        AcceptedIsEmittable(o, v, Join(data));
      }
    }
  }

  lemma {:induction false} DrainedIsEmittable(o: Oracle, v: Sse)
    requires Emittable(o, v) && Drain(o, v).ok
    ensures Emittable(o, Drain(o, v).state)
    decreases |v.buffer|
  {
    hide Validated, NextDelimiter;
    var d := NextDelimiter(v.buffer);
    if d.Some? {
      var w := v.(buffer := v.buffer[d.value.index + d.value.length..]);
      ValidatedIsEmittable(o, w, v.buffer[..d.value.index]);
      DrainedIsEmittable(o, Validated(o, w, v.buffer[..d.value.index]).state);
    }
  }

  /** A payload that fits on one data line again. */
  predicate OneLine(data: Bytes) {
    && LF !in data && (data != [] ==> data[|data| - 1] != CR)
    && |DATA| + 1 + |data| <= FRAME_LIMIT
  }

  lemma EmittedFrameIsCut(data: Bytes, rest: Bytes)
    requires OneLine(data)
    ensures NextDelimiter(Emit(data) + rest) == Some(Delimiter(|DATA| + 1 + |data|, 2))
  {
    var s := Emit(data) + rest;
    var n := |DATA| + 1 + |data|;
    var line := DATA + [SPACE] + data;
    assert s == line + LFLF + rest;
    assert LF !in line && line[n - 1] != CR;
    assert At(s, LFLF, n) by { assert s[n..n + 2] == LFLF; }
    forall j | 0 <= j < n ensures !At(s, LFLF, j) && !At(s, CRLFCRLF, j) {
      assert s[j] == line[j] != LF;
      assert j + 2 <= |s| && s[j..j + 2][0] == s[j];
      if j + 4 <= |s| {
        assert s[j..j + 4][0] == s[j] && s[j..j + 4][1] == s[j + 1];
        assert j < n - 1 ==> s[j + 1] == line[j + 1];
      }
    }
  }

  lemma LineWithoutLf(s: Bytes)
    requires s != [] && LF !in s
    ensures Lines(s) == [s]
  {
    forall i | 0 <= i < |s| ensures !At(s, [LF], i) {
      assert s[i..i + 1][0] == s[i];
    }
  }

  /** The single line of an emitted frame carries its payload back. */
  lemma EmittedFrameIsRead(o: Oracle, data: Bytes)
    requires OneLine(data) && Valid(data)
    ensures var frame := DATA + [SPACE] + data;
            Valid(frame) && DataLines(o, Lines(frame)) == Some([data])
  {
    var frame := DATA + [SPACE] + data;
    AsciiPrefix(DATA + [SPACE], data);
    LineWithoutLf(frame);
    assert Classify(o, frame) == DataLine(data) by {
      assert StripCr(frame) == frame;
      assert frame[..|DATA|] == DATA && frame[|DATA|..] == [SPACE] + data;
    }
    hide Classify, Lines, Valid;
    var lines := [frame];
    assert lines[..0] == [] && lines[0] == frame;
    assert DataLines(o, lines[..0]) == Some([]);
    assert [] + [data] == [data];
  }

  lemma EmittedFrameIsValidated(o: Oracle, v: Sse, data: Bytes)
    requires OneLine(data) && Valid(data) && !v.done
    ensures Validated(o, v, DATA + [SPACE] + data) == Accept(o, v, data)
  {
    hide Accept, DataLines, Lines;
    EmittedFrameIsRead(o, data);
    assert Join([data]) == data;
  }

  lemma EmittedFrameIsDrained(o: Oracle, v: Sse, data: Bytes, rest: Bytes)
    requires OneLine(data) && Valid(data) && !v.done && v.buffer == Emit(data) + rest
    ensures var fed := Accept(o, v.(buffer := rest), data);
            Drain(o, v) == if fed.ok then Drain(o, fed.state) else fed
  {
    hide Validated, NextDelimiter, Accept;
    EmittedFrameIsCut(data, rest);
    assert v.buffer[|DATA| + 1 + |data| + 2..] == rest;
    assert v.buffer[..|DATA| + 1 + |data|] == DATA + [SPACE] + data;
    EmittedFrameIsValidated(o, v.(buffer := rest), data);
  }

  /** What a validator that has re-read some of the frames knows. */
  predicate Rereading(v: Sse, again: Sse, n: nat) {
    && n <= |v.emitted| && again.emitted == v.emitted[..n] && !again.done
    && again.dataFrames == Min(n, U64_MAX)
    && (if n == 0 then again.id.None? && again.model.None? else again.id == v.id && again.model == v.model)
  }

  lemma TerminatorIsDrained(o: Oracle, v: Sse)
    requires v.buffer == Emit(DONE) && !v.done && o.trim(DONE) == DONE
    ensures Drain(o, v) == Fed(v.(buffer := [], done := true, frames := SaturatingAdd(v.frames, 1)), true)
  {
    TerminatorIsPlain();
    hide Validated, NextDelimiter, Valid, Emit, Drain, OneLine;
    assert v.buffer == Emit(DONE) + [];
    EmittedFrameIsDrained(o, v, DONE, []);
    EmptyIsDrained(o, v.(buffer := [], done := true, frames := SaturatingAdd(v.frames, 1)));
  }

  lemma TerminatorIsPlain()
    ensures OneLine(DONE) && Valid(DONE)
  {
    AsciiPrefix(DONE, []);
    assert DONE + [] == DONE;
  }

  lemma EmptyIsDrained(o: Oracle, v: Sse)
    requires v.buffer == []
    ensures Drain(o, v) == Fed(v, true)
  {
    NothingToCut();
  }

  lemma NothingToCut()
    ensures NextDelimiter([]).None?
  {}

  /** The next frame is read as it was emitted. */
  lemma RereadNext(o: Oracle, v: Sse, again: Sse, n: nat, rest: Bytes)
    requires Emittable(o, v) && Rereading(v, again, n) && n < |v.emitted| && OneLine(Payload(v.emitted[n]))
    requires again.buffer == v.emitted[n] + rest
    ensures var fed := Accept(o, again.(buffer := rest), Payload(v.emitted[n]));
            && fed.ok && fed.state.buffer == rest && Rereading(v, fed.state, n + 1)
            && Drain(o, again) == Drain(o, fed.state)
  {
    hide Validated, NextDelimiter, Drain, Valid, OneLine;
    var e := v.emitted[n];
    assert Vouched(o, v, e);
    EmittedFrameIsDrained(o, again, Payload(e), rest);
    assert v.emitted[..n + 1] == v.emitted[..n] + [e];
  }

  lemma {:induction false} RereadFrom(o: Oracle, v: Sse, again: Sse, n: nat)
    requires Emittable(o, v) && Rereading(v, again, n) && o.trim(DONE) == DONE
    requires forall e | e in v.emitted :: OneLine(Payload(e))
    requires again.buffer == Concat(v.emitted[n..]) + Emit(DONE)
    ensures var fed := Drain(o, again);
            && fed.ok && fed.state.buffer == [] && fed.state.done && fed.state.emitted == v.emitted
            && fed.state.dataFrames == v.dataFrames
            && (v.emitted != [] ==> fed.state.id == v.id && fed.state.model == v.model)
    decreases |v.emitted| - n
  {
    hide Validated, NextDelimiter, Drain, Accept, OneLine, Emit;
    if n == |v.emitted| {
      assert v.emitted[n..] == [] && v.emitted[..n] == v.emitted;
      TerminatorIsDrained(o, again);
    } else {
      var e := v.emitted[n];
      var rest := Concat(v.emitted[n + 1..]) + Emit(DONE);
      assert v.emitted[n..] == [e] + v.emitted[n + 1..];
      assert again.buffer == e + rest;
      RereadNext(o, v, again, n, rest);
      RereadFrom(o, v, Accept(o, again.(buffer := rest), Payload(e)).state, n + 1);
    }
  }

  /** An accepted stream whose payloads each fit on one line, re-sent as it was
      emitted with the terminator, is accepted again: the same frames come out, and
      all of them carry one id and one model. */
  lemma AcceptsItsOwnOutput(o: Oracle, input: Bytes)
    requires o.trim(DONE) == DONE
    requires Feeding(o, FRESH, input).ok && Finished(Feeding(o, FRESH, input).state)
    requires var v := Feeding(o, FRESH, input).state;
             && (forall e | e in v.emitted :: OneLine(Payload(e)))
             && |Concat(v.emitted) + Emit(DONE)| <= BUFFER_LIMIT
    ensures var v := Feeding(o, FRESH, input).state;
            var again := Feeding(o, FRESH, Concat(v.emitted) + Emit(DONE));
            && again.ok && Finished(again.state)
            && again.state.emitted == v.emitted && again.state.id == v.id && again.state.model == v.model
            && v.id.Some? && v.model.Some?
            && forall e | e in v.emitted :: o.chunk(Payload(e)) == Some(Chunk(v.id.value, v.model.value, true))
  {
    hide Drain;
    DrainedIsEmittable(o, FRESH.(buffer := [] + input));
    var v := Feeding(o, FRESH, input).state;
    assert v.emitted != [];
    assert Vouched(o, v, v.emitted[0]);
    var again := FRESH.(buffer := [] + (Concat(v.emitted) + Emit(DONE)));
    assert v.emitted[0..] == v.emitted;
    RereadFrom(o, v, again, 0);
  }

  // ---- The incremental validator --------------------------------------------------------

  class SseValidator {
    const oracle: Oracle
    var buffer: Bytes
    var emitted: seq<Bytes>
    var done: bool
    var frameCount: nat
    var dataFrameCount: nat
    var messageId: Option<Bytes>
    var model: Option<Bytes>

    function State(): Sse
      reads this
    {
      Sse(buffer, emitted, done, frameCount, dataFrameCount, messageId, model)
    }

    constructor (oracle: Oracle)
      ensures State() == FRESH && this.oracle == oracle
    {
      this.oracle := oracle;
      buffer, emitted, done := [], [], false;
      frameCount, dataFrameCount, messageId, model := 0, 0, None, None;
    }

    method TakeEmitted() returns (frames: seq<Bytes>)
      modifies this`emitted
      ensures frames == old(emitted) && State() == old(State()).(emitted := [])
    {
      frames := emitted;
      emitted := [];
    }

    /** Cuts complete frames off the buffer one by one, as soon as they are there. */
    method Feed(bytes: Bytes) returns (ok: bool)
      modifies this
      ensures Fed(State(), ok) == Feeding(oracle, old(State()), bytes)
    {
      hide Validated, NextDelimiter;
      if |buffer| + |bytes| > BUFFER_LIMIT {
        return false;
      }
      buffer := buffer + bytes;
      while true
        invariant Drain(oracle, State()) == Drain(oracle, old(State()).(buffer := old(buffer) + bytes))
        decreases |buffer|
      {
        var d := NextDelimiter(buffer);
        if d.None? {
          return true;
        }
        var cut := d.value.index + d.value.length;
        var frame := buffer[..cut];
        assert frame[..|frame| - d.value.length] == buffer[..d.value.index];
        buffer := buffer[cut..];
        var valid := ValidateFrame(frame[..|frame| - d.value.length]);
        if !valid {
          return false;
        }
      }
    }

    method Finish() returns (ok: bool)
      ensures ok == Finished(State())
    {
      var i := 0;
      while i < |buffer|
        invariant 0 <= i <= |buffer|
        invariant forall j | 0 <= j < i :: AsciiWhitespace(buffer[j])
      {
        if !AsciiWhitespace(buffer[i]) {
          return false;
        }
        i := i + 1;
      }
      ok := done && dataFrameCount >= 1;
    }

    method ValidateFrame(frame: Bytes) returns (ok: bool)
      modifies this`emitted, this`done, this`frameCount, this`dataFrameCount, this`messageId, this`model
      ensures Fed(State(), ok) == Validated(oracle, old(State()), frame)
    {
      hide Classify, Lines;
      if |frame| > FRAME_LIMIT || !Valid(frame) {
        return false;
      }
      if frame == [] {
        return true;
      }
      if done {
        return false;
      }
      var lines := Lines(frame);
      var dataLines := [];
      var i := 0;
      while i < |lines|
        invariant 0 <= i <= |lines| && DataLines(oracle, lines[..i]) == Some(dataLines)
      {
        assert lines[..i + 1][..i] == lines[..i];
        match Classify(oracle, lines[i]) {
          case BadLine =>
            BadLinePoisons(oracle, lines, i);
            return false;
          case Ignored =>
          case DataLine(value) => dataLines := dataLines + [value];
        }
        i := i + 1;
      }
      assert lines[..|lines|] == lines;
      if dataLines == [] {
        return true;
      }
      ok := AcceptData(Join(dataLines));
    }

    /** The payload part of `validate_frame`. */
    method AcceptData(data: Bytes) returns (ok: bool)
      modifies this`emitted, this`done, this`frameCount, this`dataFrameCount, this`messageId, this`model
      ensures Fed(State(), ok) == Accept(oracle, old(State()), data)
    {
      frameCount := SaturatingAdd(frameCount, 1);
      if oracle.trim(data) == DONE {
        done := true;
        return true;
      }
      dataFrameCount := SaturatingAdd(dataFrameCount, 1);
      var chunk := oracle.chunk(data);
      if chunk.None? || Clashes(messageId, chunk.value.id) || Clashes(model, chunk.value.model) {
        return false;
      }
      messageId := Some(chunk.value.id);
      model := Some(chunk.value.model);
      if !chunk.value.choices {
        return false;
      }
      emitted := emitted + [Emit(data)];
      ok := true;
    }
  }

  lemma {:induction false} BadLinePoisons(o: Oracle, lines: seq<Bytes>, i: nat)
    requires i < |lines| && Classify(o, lines[i]).BadLine?
    ensures DataLines(o, lines).None?
    decreases |lines|
  {
    if i < |lines| - 1 {
      BadLinePoisons(o, lines[..|lines| - 1], i);
    }
  }

  /** Every frame taken out of a validator is an emitted data frame. */
  predicate IsData(o: Oracle, frame: Bytes) {
    frame == Emit(Payload(frame)) && o.trim(Payload(frame)) != DONE
  }

  lemma PassedAreData(o: Oracle, v: Sse, received: Bytes, passed: seq<Bytes>)
    requires Represents(o, v, received, passed)
    ensures forall f | f in passed :: IsData(o, f)
  {
    DrainedIsEmittable(o, FRESH.(buffer := received));
    forall f | f in passed ensures IsData(o, f) {
      assert Vouched(o, v.(emitted := passed), f);
    }
  }
}
