/** What the validator accepts of a single frame, said of the frame itself. */
module SseLaws {
  import opened Common
  import opened Utf8
  import opened SseFraming

  /** A frame's line is empty, a comment, data, or a harmless other field. */
  predicate LineAllowed(o: Oracle, raw: Bytes) {
    var line := StripCr(raw);
    || line == [] || line[0] == COLON || DATA <= line
    || (EVENT <= line
        && var name := o.trim(line[|EVENT|..]); |name| <= 64 && forall b | b in name :: 0x20 <= b <= 0x7E)
    || (ID <= line && |o.trim(line[|ID|..])| <= 128 && 0 !in line[|ID|..])
    || (RETRY <= line
        && var digits := o.trim(line[|RETRY|..]); 1 <= |digits| <= 6 && forall b | b in digits :: 0x30 <= b <= 0x39)
  }

  /** What the data lines say, in their order; one space after the colon does not count. */
  function Values(lines: seq<Bytes>): seq<Bytes> {
    if lines == [] then []
    else
      var line := StripCr(lines[0]);
      var here :=
        if DATA + [SPACE] <= line then [line[|DATA| + 1..]] else if DATA <= line then [line[|DATA|..]] else [];
      here + Values(lines[1..])
  }

  /** The parts with a line feed between any two. */
  function Joined(parts: seq<Bytes>): Bytes {
    if parts == [] then [] else if |parts| == 1 then parts[0] else parts[0] + [LF] + Joined(parts[1..])
  }

  lemma {:induction false} ValuesOfOneMore(lines: seq<Bytes>, last: Bytes)
    ensures Values(lines + [last]) == Values(lines) + Values([last])
    decreases |lines|
  {
    if lines == [] {
      assert lines + [last] == [last];
    } else {
      assert (lines + [last])[1..] == lines[1..] + [last];
      ValuesOfOneMore(lines[1..], last);
    }
  }

  lemma {:induction false} JoinedOfOneMore(parts: seq<Bytes>, last: Bytes)
    requires parts != []
    ensures Joined(parts + [last]) == Joined(parts) + [LF] + last
    decreases |parts|
  {
    assert (parts + [last])[1..] == parts[1..] + [last];
    if |parts| > 1 {
      JoinedOfOneMore(parts[1..], last);
    }
  }

  lemma {:induction false} JoinIsJoined(parts: seq<Bytes>)
    ensures Join(parts) == Joined(parts)
    decreases |parts|
  {
    if |parts| > 1 {
      var n := |parts| - 1;
      JoinIsJoined(parts[..n]);
      JoinedOfOneMore(parts[..n], parts[n]);
      assert parts[..n] + [parts[n]] == parts;
    }
  }

  lemma AllBetween(s: Bytes, low: int, high: int)
    ensures (forall b | b in s :: low <= b <= high) <==> !exists i | 0 <= i < |s| :: !(low <= s[i] <= high)
  {
    if forall b | b in s :: low <= b <= high {
      forall i | 0 <= i < |s| ensures low <= s[i] <= high {
        assert s[i] in s;
      }
    }
  }

  lemma ClassifiedAsMeant(o: Oracle, raw: Bytes)
    ensures Classify(o, raw).BadLine? <==> !LineAllowed(o, raw)
    ensures Values([raw]) == match Classify(o, raw) case DataLine(value) => [value] case _ => []
  {
    var line := StripCr(raw);
    assert [raw][1..] == [];
    if DATA <= line {
      var rest := line[|DATA|..];
      assert DATA + [SPACE] <= line <==> rest != [] && rest[0] == SPACE;
    }
    if EVENT <= line {
      AllBetween(o.trim(line[|EVENT|..]), 0x20, 0x7E);
      assert line[0] == EVENT[0];
    }
    if ID <= line {
      assert line[0] == ID[0];
    }
    if RETRY <= line {
      AllBetween(o.trim(line[|RETRY|..]), 0x30, 0x39);
      assert line[0] == RETRY[0];
    }
  }

  lemma {:induction false} DataLinesAsMeant(o: Oracle, lines: seq<Bytes>)
    ensures DataLines(o, lines).Some? <==> forall line | line in lines :: LineAllowed(o, line)
    ensures DataLines(o, lines).Some? ==> DataLines(o, lines).value == Values(lines)
    decreases |lines|
  {
    hide Classify, LineAllowed;
    if lines != [] {
      var n := |lines| - 1;
      DataLinesAsMeant(o, lines[..n]);
      ClassifiedAsMeant(o, lines[n]);
      ValuesOfOneMore(lines[..n], lines[n]);
      assert lines[..n] + [lines[n]] == lines;
      assert forall line | line in lines :: line in lines[..n] || line == lines[n];
    }
  }

  /** The payload is a chunk of the message that is under way. */
  predicate Continues(o: Oracle, v: Sse, payload: Bytes) {
    && o.chunk(payload).Some?
    && (v.id.Some? ==> o.chunk(payload).value.id == v.id.value)
    && (v.model.Some? ==> o.chunk(payload).value.model == v.model.value)
    && o.chunk(payload).value.choices
  }

  /** A frame is accepted exactly if it is small and well-formed and, unless it is empty,
      comes before any terminator, has allowed lines only, and its payload, if it has
      one, is the terminator or continues the message; and it is emitted exactly in that
      last case. */
  lemma FrameIsJudged(o: Oracle, v: Sse, frame: Bytes)
    ensures var values := Values(Lines(frame)); var payload := Joined(values);
            var fed := Validated(o, v, frame);
            && (fed.ok <==>
                  && |frame| <= 1024 * 1024 && Valid(frame)
                  && (frame == []
                      || (&& !v.done
                          && (forall line | line in Lines(frame) :: LineAllowed(o, line))
                          && (values == [] || o.trim(payload) == DONE || Continues(o, v, payload)))))
            && (!fed.ok ==> fed.state.emitted == v.emitted && fed.state.done == v.done)
            && (fed.ok ==>
                  if values == [] then fed.state == v
                  else if o.trim(payload) == DONE then
                    fed.state == v.(done := true, frames := SaturatingAdd(v.frames, 1))
                  else
                    && fed.state.emitted == v.emitted + [DATA + [SPACE] + payload + [LF, LF]]
                    && fed.state.id == Some(o.chunk(payload).value.id)
                    && fed.state.model == Some(o.chunk(payload).value.model)
                    && fed.state.frames == SaturatingAdd(v.frames, 1)
                    && fed.state.dataFrames == SaturatingAdd(v.dataFrames, 1)
                    && fed.state.done == v.done)
  {
    hide Lines, Valid, LineAllowed, Values, Joined, Join, DataLines;
    DataLinesAsMeant(o, Lines(frame));
    JoinIsJoined(Values(Lines(frame)));
    EmptyHasNoLines();
  }

  /** The boundary cut at is one of the two kinds, whole, and none of either kind starts
      before it; there is none exactly if the buffer holds neither. */
  lemma DelimiterMeans(s: Bytes)
    ensures NextDelimiter(s).None? <==> forall j: nat :: !At(s, [LF, LF], j) && !At(s, [CR, LF, CR, LF], j)
    ensures NextDelimiter(s).Some? ==>
              var d := NextDelimiter(s).value;
              && (if d.length == 2 then At(s, [LF, LF], d.index) else d.length == 4 && At(s, [CR, LF, CR, LF], d.index))
              && forall j: nat | j < d.index :: !At(s, [LF, LF], j) && !At(s, [CR, LF, CR, LF], j)
  {
    forall j: nat | At(s, LFLF, j) || At(s, CRLFCRLF, j)
      ensures NextDelimiter(s).Some? && NextDelimiter(s).value.index <= j
    {
      EarliestStartEndsFirst(s, j);
    }
  }

  /** Bytes that would take the buffer over 256 mebibytes are refused and change nothing. */
  lemma OverflowIsRefused(o: Oracle, v: Sse, bytes: Bytes)
    requires |v.buffer| + |bytes| > 256 * 1024 * 1024
    ensures Feeding(o, v, bytes) == Fed(v, false)
  {}

  lemma EmptyHasNoLines()
    ensures Lines([]) == [] && Values([]) == []
  {}

  /** Without carriage returns the lines are the text cut at its line feeds: none holds
      one, and joined again they are the text, but for a line feed at its end. */
  lemma {:induction false} LinesRejoin(s: Bytes)
    requires CR !in s
    ensures forall line | line in Lines(s) :: LF !in line
    ensures s == Joined(Lines(s)) || s == Joined(Lines(s)) + [LF]
    ensures s != [] ==> Lines(s) != []
    decreases |s|
  {
    var i := First(s, [LF]);
    if s == [] {
    } else if i.None? {
      forall j | 0 <= j < |s| ensures s[j] != LF {
        assert s[j..j + 1] == [s[j]];
        assert !At(s, [LF], j);
      }
    } else {
      var head, rest := s[..i.value], s[i.value + 1..];
      forall j | 0 <= j < |head| ensures head[j] != LF {
        assert s[j..j + 1] == [s[j]];
        assert !At(s, [LF], j);
      }
      assert s[i.value..i.value + 1] == [LF] && s == head + [LF] + rest;
      LinesRejoin(rest);
      assert Lines(s) == [head] + Lines(rest);
      assert Lines(s)[1..] == Lines(rest);
    }
  }
}
