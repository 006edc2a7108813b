/** The two configuration rewrites of the cutover: one key of a dotenv file, and the
    model block of a YAML file. Everything else in the files stays as it is. */
module ConfigRewrite {
  import opened Common

  // ---- Text and lines -------------------------------------------------------------

  function Find(s: string, c: char): (i: Option<nat>)
    ensures i.Some? ==> i.value < |s| && s[i.value] == c && c !in s[..i.value]
    ensures i.None? ==> c !in s
  {
    if s == [] then None
    else if s[0] == c then Some(0)
    else
      var rest := Find(s[1..], c);
      if rest.None? then None
      else
        assert s[..rest.value + 1] == [s[0]] + s[1..][..rest.value];
        Some(rest.value + 1)
  }

  function StripCr(line: string): string {
    if line != [] && line[|line| - 1] == '\r' then line[..|line| - 1] else line
  }

  /** `str::lines`. */
  function Lines(s: string): seq<string>
    decreases |s|
  {
    if s == [] then []
    else
      var i := Find(s, '\n');
      if i.None? then [s] else [StripCr(s[..i.value])] + Lines(s[i.value + 1..])
  }

  /** `lines.join("\n")` and a final newline. */
  function Unlines(lines: seq<string>): string {
    if lines == [] then "\n"
    else if |lines| == 1 then lines[0] + "\n"
    else lines[0] + "\n" + Unlines(lines[1..])
  }

  predicate Plain(line: string) {
    '\n' !in line && '\r' !in line
  }

  predicate AllPlain(lines: seq<string>) {
    forall i | 0 <= i < |lines| :: Plain(lines[i])
  }

  lemma FindAt(s: string, c: char, i: nat)
    requires i < |s| && s[i] == c && c !in s[..i]
    ensures Find(s, c) == Some(i)
  {
    var j := Find(s, c).value;
    assert forall k | 0 <= k < i :: s[k] == s[..i][k];
    assert forall k | 0 <= k < j :: s[k] == s[..j][k];
  }

  lemma FindAfter(line: string, rest: string)
    requires '\n' !in line
    ensures Find(line + "\n" + rest, '\n') == Some(|line|)
  {
    var s := line + "\n" + rest;
    assert s[..|line|] == line;
    FindAt(s, '\n', |line|);
  }

  /** Lines that were joined are read back as they were. */
  lemma {:induction false} LinesOfUnlines(lines: seq<string>)
    requires lines != [] && AllPlain(lines)
    ensures Lines(Unlines(lines)) == lines
    decreases |lines|
  {
    var line := lines[0];
    if |lines| == 1 {
      FindAfter(line, "");
      assert line + "\n" + "" == Unlines(lines);
      assert Unlines(lines)[..|line|] == line && Unlines(lines)[|line| + 1..] == [];
      assert Lines("") == [];
    } else {
      var rest := Unlines(lines[1..]);
      FindAfter(line, rest);
      assert Unlines(lines) == line + "\n" + rest;
      assert Unlines(lines)[..|line|] == line && Unlines(lines)[|line| + 1..] == rest;
      LinesOfUnlines(lines[1..]);
    }
  }

  lemma {:induction false} LinesArePlain(s: string)
    requires '\r' !in s
    ensures AllPlain(Lines(s))
    decreases |s|
  {
    if s != [] {
      var i := Find(s, '\n');
      if i.Some? {
        LinesArePlain(s[i.value + 1..]);
      }
    }
  }

  // ---- The dotenv file ----------------------------------------------------------------

  /** Unicode White_Space, which `str::trim` removes. */
  predicate White(c: char) {
    var n := c as int;
    || 0x09 <= n <= 0x0D || 0x2000 <= n <= 0x200A
    || n in {0x20, 0x85, 0xA0, 0x1680, 0x2028, 0x2029, 0x202F, 0x205F, 0x3000}
  }

  function TrimEnd(s: string): string {
    if s != [] && White(s[|s| - 1]) then TrimEnd(s[..|s| - 1]) else s
  }

  function TrimStart(s: string): string {
    if s != [] && White(s[0]) then TrimStart(s[1..]) else s
  }

  /** The line sets this key: what stands before its first `=` is the key. */
  predicate Sets(line: string, key: string) {
    var i := Find(line, '=');
    i.Some? && TrimEnd(TrimStart(line[..i.value])) == key
  }

  function EnvLine(key: string, value: string): string {
    key + "=" + value
  }

  function Replaced(lines: seq<string>, key: string, value: string): (r: seq<string>)
    ensures |r| == |lines|
    ensures forall i | 0 <= i < |lines| :: r[i] == if Sets(lines[i], key) then EnvLine(key, value) else lines[i]
  {
    seq(|lines|, i requires 0 <= i < |lines| => if Sets(lines[i], key) then EnvLine(key, value) else lines[i])
  }

  predicate SomeSets(lines: seq<string>, key: string) {
    exists i | 0 <= i < |lines| :: Sets(lines[i], key)
  }

  function EnvLines(lines: seq<string>, key: string, value: string): seq<string> {
    if SomeSets(lines, key) then Replaced(lines, key, value) else Replaced(lines, key, value) + [EnvLine(key, value)]
  }

  function UpdateDotenv(existing: string, key: string, value: string): string {
    Unlines(EnvLines(Lines(existing), key, value))
  }

  /** A key that names itself, and a value on one line. */
  predicate Settable(key: string, value: string) {
    '=' !in key && TrimEnd(TrimStart(key)) == key && Plain(key) && Plain(value)
  }

  lemma EnvLineSets(key: string, value: string)
    requires Settable(key, value)
    ensures Sets(EnvLine(key, value), key)
  {
    var line := EnvLine(key, value);
    assert line[..|key|] == key;
    FindAt(line, '=', |key|);
  }

  /** The lines that do not set the key, in order. */
  function Others(lines: seq<string>, key: string): seq<string> {
    if lines == [] then []
    else Others(lines[..|lines| - 1], key) + if Sets(lines[|lines| - 1], key) then [] else [lines[|lines| - 1]]
  }

  lemma {:induction false} ReplacedKeepsOthers(lines: seq<string>, key: string, value: string)
    requires Settable(key, value)
    ensures Others(Replaced(lines, key, value), key) == Others(lines, key)
    decreases |lines|
  {
    EnvLineSets(key, value);
    if lines != [] {
      var n := |lines| - 1;
      assert Replaced(lines, key, value)[..n] == Replaced(lines[..n], key, value);
      ReplacedKeepsOthers(lines[..n], key, value);
    }
  }

  lemma OthersAfterAppend(lines: seq<string>, key: string, line: string)
    requires Sets(line, key)
    ensures Others(lines + [line], key) == Others(lines, key)
  {
    assert (lines + [line])[..|lines|] == lines;
  }

  /** Every line for the key holds the value. */
  predicate AllHold(lines: seq<string>, key: string, value: string) {
    forall i | 0 <= i < |lines| :: Sets(lines[i], key) ==> lines[i] == EnvLine(key, value)
  }

  lemma HeldLinesStay(lines: seq<string>, key: string, value: string)
    requires AllHold(lines, key, value) && SomeSets(lines, key)
    ensures EnvLines(lines, key, value) == lines
  {
    assert Replaced(lines, key, value) == lines;
  }

  /** Every line for the key holds the value, there is one, and the others are kept. */
  lemma EnvLinesAreRight(lines: seq<string>, key: string, value: string)
    requires Settable(key, value)
    ensures var r := EnvLines(lines, key, value);
            && AllHold(r, key, value) && EnvLine(key, value) in r
            && Others(r, key) == Others(lines, key) && EnvLines(r, key, value) == r
  {
    EnvLineSets(key, value);
    ReplacedKeepsOthers(lines, key, value);
    ReplacedHolds(lines, key, value);
    hide Sets, EnvLine, Others, SomeSets, AllHold;
    var same, line := Replaced(lines, key, value), EnvLine(key, value);
    OthersAfterAppend(same, key, line);
    HeldAfterAppend(same, key, value);
    HeldLinesStay(EnvLines(lines, key, value), key, value);
  }

  lemma ReplacedHolds(lines: seq<string>, key: string, value: string)
    requires Sets(EnvLine(key, value), key)
    ensures var r := Replaced(lines, key, value);
            AllHold(r, key, value) && (SomeSets(lines, key) ==> SomeSets(r, key) && EnvLine(key, value) in r)
  {
    hide Sets, EnvLine;
    var r := Replaced(lines, key, value);
    if i :| 0 <= i < |lines| && Sets(lines[i], key) {
      assert r[i] == EnvLine(key, value);
    }
  }

  lemma HeldAfterAppend(lines: seq<string>, key: string, value: string)
    requires AllHold(lines, key, value) && Sets(EnvLine(key, value), key)
    ensures var r := lines + [EnvLine(key, value)];
            AllHold(r, key, value) && SomeSets(r, key) && EnvLine(key, value) in r
  {
    hide Sets, EnvLine;
    var r := lines + [EnvLine(key, value)];
    assert r[|lines|] == EnvLine(key, value);
  }

  /** On text without carriage returns, updating twice is updating once; and what is
      read back has the value in every line for the key and all other lines as before. */
  lemma UpdateDotenvIsRight(existing: string, key: string, value: string)
    requires '\r' !in existing && Settable(key, value)
    ensures var result := UpdateDotenv(existing, key, value);
            && UpdateDotenv(result, key, value) == result
            && (forall line | line in Lines(result) :: Sets(line, key) ==> line == EnvLine(key, value))
            && EnvLine(key, value) in Lines(result)
            && Others(Lines(result), key) == Others(Lines(existing), key)
  {
    hide Sets, Others, Lines, Unlines;
    LinesArePlain(existing);
    var r := EnvLines(Lines(existing), key, value);
    EnvLinesAreRight(Lines(existing), key, value);
    EnvLinesArePlain(Lines(existing), key, value);
    LinesOfUnlines(r);
    hide EnvLines;
  }

  lemma EnvLinesArePlain(lines: seq<string>, key: string, value: string)
    requires AllPlain(lines) && Settable(key, value)
    ensures AllPlain(EnvLines(lines, key, value)) && EnvLines(lines, key, value) != []
  {
    assert Plain(EnvLine(key, value));
  }

  /** The loop of `update_dotenv`. */
  method RewriteDotenv(existing: string, key: string, value: string) returns (result: string)
    ensures result == UpdateDotenv(existing, key, value)
  {
    hide Sets;
    var lines := Lines(existing);
    var written: seq<string> := [];
    var found := false;
    for i := 0 to |lines|
      invariant written == Replaced(lines, key, value)[..i]
      invariant found <==> exists j | 0 <= j < i :: Sets(lines[j], key)
    {
      if Sets(lines[i], key) {
        found := true;
        written := written + [EnvLine(key, value)];
      } else {
        written := written + [lines[i]];
      }
    }
    if !found {
      written := written + [EnvLine(key, value)];
    }
    assert Replaced(lines, key, value)[..|lines|] == Replaced(lines, key, value);
    assert found ==> EnvLines(lines, key, value) == Replaced(lines, key, value);
    assert written == EnvLines(lines, key, value);
    result := Unlines(written);
  }

  // ---- The YAML file --------------------------------------------------------------------

  /** The fields of the model block with the values Hermes needs. */
  datatype Field = Field(key: string, value: string)

  const PROVIDER := Field("provider", "nvidia")
  const DEFAULT := Field("default", "z-ai/glm-5.2")
  const BASE_URL := Field("base_url", "http://127.0.0.1:2456/v1")
  const FIELDS := [PROVIDER, DEFAULT, BASE_URL]
  const MODEL := "model:"

  function Prefix(f: Field): string {
    "  " + f.key + ":"
  }

  function FieldLine(f: Field): string {
    Prefix(f) + " " + f.value
  }

  predicate IsField(line: string, f: Field) {
    Prefix(f) <= line
  }

  /** A line that ends the block: not empty, not indented, no comment. */
  predicate EndsBlock(line: string) {
    line != [] && line[0] != ' ' && line[0] != '#'
  }

  function FirstModel(lines: seq<string>, i: nat): (start: Option<nat>)
    ensures start.Some? ==> i <= start.value < |lines| && TrimEnd(lines[start.value]) == MODEL
                            && forall j | i <= j < start.value :: TrimEnd(lines[j]) != MODEL
    ensures start.None? ==> forall j | i <= j < |lines| :: TrimEnd(lines[j]) != MODEL
    decreases |lines| - i
  {
    if i >= |lines| then None else if TrimEnd(lines[i]) == MODEL then Some(i) else FirstModel(lines, i + 1)
  }

  function BlockEnd(lines: seq<string>, i: nat): (end: nat)
    requires i <= |lines|
    ensures i <= end <= |lines| && (forall j | i <= j < end :: !EndsBlock(lines[j]))
    ensures end < |lines| ==> EndsBlock(lines[end])
    decreases |lines| - i
  {
    if i == |lines| || EndsBlock(lines[i]) then i else BlockEnd(lines, i + 1)
  }

  function CountField(block: seq<string>, f: Field): nat {
    if block == [] then 0
    else CountField(block[..|block| - 1], f) + if IsField(block[|block| - 1], f) then 1 else 0
  }

  function FirstField(block: seq<string>, f: Field, i: nat): (p: Option<nat>)
    ensures p.Some? ==> i <= p.value < |block| && IsField(block[p.value], f)
                        && forall j | i <= j < p.value :: !IsField(block[j], f)
    ensures p.None? ==> forall j | i <= j < |block| :: !IsField(block[j], f)
    decreases |block| - i
  {
    if i >= |block| then None else if IsField(block[i], f) then Some(i) else FirstField(block, f, i + 1)
  }

  /** Rewrites the field where it stands, or adds it at the end of the block. */
  function SetField(block: seq<string>, f: Field): Option<seq<string>> {
    if CountField(block, f) > 1 then None
    else
      var p := FirstField(block, f, 0);
      if p.Some? then Some(block[p.value := FieldLine(f)]) else Some(block + [FieldLine(f)])
  }

  function SetFields(block: seq<string>, fields: seq<Field>): Option<seq<string>> {
    if fields == [] then Some(block)
    else
      var before := SetFields(block, fields[..|fields| - 1]);
      if before.None? then None else SetField(before.value, fields[|fields| - 1])
  }

  /** The lines with a model block, adding an empty one where there is none. */
  function WithModel(lines: seq<string>): (r: seq<string>)
    ensures FirstModel(r, 0).Some?
  {
    if FirstModel(lines, 0).Some? then lines
    else
      var gap := lines + if lines != [] && lines[|lines| - 1] != [] then [""] else [];
      var r := gap + [MODEL];
      assert r[|gap|] == MODEL && TrimEnd(MODEL) == MODEL;
      r
  }

  /** The file in three parts: up to the model line, the block, and the rest. */
  datatype Parts = Parts(head: seq<string>, block: seq<string>, tail: seq<string>)

  function Split(lines: seq<string>): (p: Parts)
    ensures p.head + p.block + p.tail == WithModel(lines)
  {
    var all := WithModel(lines);
    var start := FirstModel(all, 0).value;
    var end := BlockEnd(all, start + 1);
    Parts(all[..start + 1], all[start + 1..end], all[end..])
  }

  predicate HasTab(lines: seq<string>) {
    exists i | 0 <= i < |lines| :: '\t' in lines[i]
  }

  function YamlLines(lines: seq<string>): Option<seq<string>> {
    if HasTab(lines) then None
    else
      var p := Split(lines);
      var block := SetFields(p.block, FIELDS);
      if block.None? then None else Some(p.head + block.value + p.tail)
  }

  function UpdateYaml(existing: string): Option<string> {
    var lines := YamlLines(Lines(existing));
    if lines.None? then None else Some(Unlines(lines.value))
  }

  // ---- The block is right ------------------------------------------------------------------

  lemma FieldsDiffer(f: Field, g: Field)
    requires f in FIELDS && g in FIELDS
    ensures IsField(FieldLine(f), g) <==> f == g
  {
    assert PROVIDER.key[0] == 'p' && DEFAULT.key[0] == 'd' && BASE_URL.key[0] == 'b';
    assert FieldLine(f)[2] == f.key[0] && Prefix(g)[2] == g.key[0];
    assert Prefix(f) <= FieldLine(f);
  }

  lemma NoLineIsTwoFields(line: string, f: Field, g: Field)
    requires f in FIELDS && g in FIELDS && IsField(line, f) && IsField(line, g)
    ensures f == g
  {
    assert PROVIDER.key[0] == 'p' && DEFAULT.key[0] == 'd' && BASE_URL.key[0] == 'b';
    assert line[2] == Prefix(f)[2] == f.key[0] && line[2] == Prefix(g)[2] == g.key[0];
  }

  lemma {:induction false} CountAfterUpdate(block: seq<string>, i: nat, line: string, f: Field)
    requires i < |block|
    ensures CountField(block[i := line], f)
         == CountField(block, f) - (if IsField(block[i], f) then 1 else 0) + (if IsField(line, f) then 1 else 0)
    decreases |block|
  {
    var n := |block| - 1;
    if i < n {
      assert block[i := line][..n] == block[..n][i := line];
      CountAfterUpdate(block[..n], i, line, f);
    } else {
      assert block[i := line][..n] == block[..n];
    }
  }

  lemma CountAfterAppend(block: seq<string>, line: string, f: Field)
    ensures CountField(block + [line], f) == CountField(block, f) + if IsField(line, f) then 1 else 0
  {
    assert (block + [line])[..|block|] == block;
  }

  lemma {:induction false} CountBelow(block: seq<string>, i: nat, j: nat, f: Field)
    requires i < |block| && IsField(block[i], f)
    ensures CountField(block, f) >= 1
    ensures i < j < |block| && IsField(block[j], f) ==> CountField(block, f) >= 2
    decreases |block|
  {
    var n := |block| - 1;
    if i < n {
      CountBelow(block[..n], i, j, f);
    }
  }

  lemma {:induction false} CountNone(block: seq<string>, f: Field)
    requires forall i | 0 <= i < |block| :: !IsField(block[i], f)
    ensures CountField(block, f) == 0
    decreases |block|
  {
    if block != [] {
      CountNone(block[..|block| - 1], f);
    }
  }

  predicate AnyField(line: string) {
    IsField(line, PROVIDER) || IsField(line, DEFAULT) || IsField(line, BASE_URL)
  }

  /** The lines that are none of the three fields, in order. */
  function Kept(block: seq<string>): seq<string> {
    if block == [] then []
    else Kept(block[..|block| - 1]) + if AnyField(block[|block| - 1]) then [] else [block[|block| - 1]]
  }

  lemma {:induction false} KeptAfterUpdate(block: seq<string>, i: nat, line: string)
    requires i < |block| && AnyField(block[i]) && AnyField(line)
    ensures Kept(block[i := line]) == Kept(block)
    decreases |block|
  {
    var n := |block| - 1;
    if i < n {
      assert block[i := line][..n] == block[..n][i := line];
      KeptAfterUpdate(block[..n], i, line);
    } else {
      assert block[i := line][..n] == block[..n];
    }
  }

  /** The field stands once in the block, with its value. */
  predicate Holds(block: seq<string>, f: Field) {
    CountField(block, f) == 1 && forall i | 0 <= i < |block| && IsField(block[i], f) :: block[i] == FieldLine(f)
  }

  lemma SetFieldIsRight(block: seq<string>, f: Field)
    requires f in FIELDS && SetField(block, f).Some?
    ensures var after := SetField(block, f).value;
            && Holds(after, f) && Kept(after) == Kept(block)
            && (forall g | g in FIELDS && g != f :: CountField(after, g) == CountField(block, g))
            && (forall g | g in FIELDS && g != f && Holds(block, g) :: Holds(after, g))
            && (Holds(block, f) ==> after == block)
  {
    var line := FieldLine(f);
    FieldsDiffer(f, f);
    var p := FirstField(block, f, 0);
    var after := SetField(block, f).value;
    if p.Some? {
      CountBelow(block, p.value, |block|, f);
      CountAfterUpdate(block, p.value, line, f);
      KeptAfterUpdate(block, p.value, line);
      forall j | 0 <= j < |block| && j != p.value ensures !IsField(block[j], f) {
        if j > p.value { CountBelow(block, p.value, j, f); }
      }
      forall g | g in FIELDS && g != f
        ensures CountField(after, g) == CountField(block, g) && (Holds(block, g) ==> Holds(after, g))
      {
        FieldsDiffer(f, g);
        CountAfterUpdate(block, p.value, line, g);
        if IsField(block[p.value], g) { NoLineIsTwoFields(block[p.value], f, g); }
      }
    } else {
      CountNone(block, f);
      CountAfterAppend(block, line, f);
      assert after[..|block|] == block;
      forall g | g in FIELDS && g != f
        ensures CountField(after, g) == CountField(block, g) && (Holds(block, g) ==> Holds(after, g))
      {
        FieldsDiffer(f, g);
        CountAfterAppend(block, line, g);
      }
    }
  }

  lemma SetFieldsInTurn(block: seq<string>)
    ensures var a := SetField(block, PROVIDER);
            var b := if a.None? then None else SetField(a.value, DEFAULT);
            SetFields(block, FIELDS) == if b.None? then None else SetField(b.value, BASE_URL)
  {
    assert FIELDS[..2] == [PROVIDER, DEFAULT] && [PROVIDER, DEFAULT][..1] == [PROVIDER] && [PROVIDER][..0] == [];
    assert SetFields(block, [PROVIDER]) == SetField(block, PROVIDER);
  }

  /** The block is refused exactly when one of the fields stands in it twice;
      otherwise each stands there once, with its value, and the rest is kept. */
  lemma BlockIsRight(block: seq<string>)
    ensures SetFields(block, FIELDS).Some? <==> forall f | f in FIELDS :: CountField(block, f) <= 1
    ensures SetFields(block, FIELDS).Some? ==>
              var after := SetFields(block, FIELDS).value;
              && (forall f | f in FIELDS :: Holds(after, f)) && Kept(after) == Kept(block)
              && SetFields(after, FIELDS) == Some(after)
  {
    hide SetFields, Holds, CountField, Kept;
    assert PROVIDER in FIELDS && DEFAULT in FIELDS && BASE_URL in FIELDS;
    assert PROVIDER != DEFAULT && DEFAULT != BASE_URL && PROVIDER != BASE_URL by {
      assert PROVIDER.key[0] == 'p' && DEFAULT.key[0] == 'd' && BASE_URL.key[0] == 'b';
    }
    SetFieldsInTurn(block);
    var a := SetField(block, PROVIDER);
    if a.Some? {
      SetFieldIsRight(block, PROVIDER);
      var b := SetField(a.value, DEFAULT);
      if b.Some? {
        SetFieldIsRight(a.value, DEFAULT);
        var c := SetField(b.value, BASE_URL);
        if c.Some? {
          SetFieldIsRight(b.value, BASE_URL);
          SettledBlockStays(c.value);
        }
      }
    }
  }

  lemma SettledBlockStays(block: seq<string>)
    requires forall f | f in FIELDS :: Holds(block, f)
    ensures SetFields(block, FIELDS) == Some(block)
  {
    SetFieldsInTurn(block);
    assert PROVIDER in FIELDS && DEFAULT in FIELDS && BASE_URL in FIELDS;
    SetFieldIsRight(block, PROVIDER);
    SetFieldIsRight(block, DEFAULT);
    SetFieldIsRight(block, BASE_URL);
  }

  // ---- The file is right --------------------------------------------------------------------

  lemma {:induction false} TrimEndIsPrefix(s: string)
    ensures TrimEnd(s) <= s
    decreases |s|
  {
    if s != [] && White(s[|s| - 1]) {
      TrimEndIsPrefix(s[..|s| - 1]);
    }
  }

  /** The model line that was found stands at the root: the check for an indented one
      behind it never fires. */
  lemma ModelLineIsAtRoot(line: string)
    requires TrimEnd(line) == MODEL
    ensures line != [] && line[0] == 'm' && !White(line[0]) && EndsBlock(line)
  {
    TrimEndIsPrefix(line);
    assert MODEL[0] == 'm';
  }

  lemma FirstModelAt(lines: seq<string>, i: nat)
    requires i < |lines| && TrimEnd(lines[i]) == MODEL && forall j | 0 <= j < i :: TrimEnd(lines[j]) != MODEL
    ensures FirstModel(lines, 0) == Some(i)
  {}

  lemma {:induction false} BlockEndAt(lines: seq<string>, i: nat, end: nat)
    requires i <= end <= |lines| && (forall j | i <= j < end :: !EndsBlock(lines[j]))
    requires end < |lines| ==> EndsBlock(lines[end])
    ensures BlockEnd(lines, i) == end
    decreases end - i
  {
    if i < end {
      BlockEndAt(lines, i + 1, end);
    }
  }

  predicate Inside(block: seq<string>) {
    forall i | 0 <= i < |block| :: !EndsBlock(block[i]) && '\t' !in block[i]
  }

  predicate Clean(s: string) {
    '\t' !in s && '\n' !in s && '\r' !in s
  }

  lemma CleanConcat(a: string, b: string)
    requires Clean(a) && Clean(b)
    ensures Clean(a + b)
  {}

  lemma FieldIsClean(f: Field)
    requires f in FIELDS
    ensures Clean(f.key) && Clean(f.value)
  {
    hide Clean;
    UrlIsClean();
    KeysAreClean();
    ValuesAreClean();
  }

  lemma KeysAreClean()
    ensures Clean("provider") && Clean("default") && Clean("base_url")
  {}

  lemma ValuesAreClean()
    ensures Clean("nvidia") && Clean("z-ai/glm-5.2")
  {}

  lemma UrlIsClean()
    ensures Clean("http://127.0.0.1:2456/v1")
  {}

  lemma FieldLineIsInside(f: Field)
    requires f in FIELDS
    ensures !EndsBlock(FieldLine(f)) && '\t' !in FieldLine(f) && Plain(FieldLine(f))
  {
    FieldIsClean(f);
    MarksAreClean();
    CleanIsPlain(FieldLine(f));
    hide Clean;
    CleanConcat("  ", f.key);
    CleanConcat("  " + f.key, ":");
    CleanConcat(Prefix(f), " ");
    CleanConcat(Prefix(f) + " ", f.value);
    assert Clean(FieldLine(f));
    assert FieldLine(f)[0] == ' ';
  }

  lemma MarksAreClean()
    ensures Clean("  ") && Clean(":") && Clean(" ")
  {}

  lemma CleanIsPlain(s: string)
    ensures Clean(s) ==> '\t' !in s && Plain(s)
  {}

  lemma SetFieldStaysInside(block: seq<string>, f: Field)
    requires f in FIELDS && SetField(block, f).Some?
    ensures Inside(block) ==> Inside(SetField(block, f).value)
    ensures AllPlain(block) ==> AllPlain(SetField(block, f).value)
  {
    FieldLineIsInside(f);
  }

  lemma SetFieldsStayInside(block: seq<string>)
    requires SetFields(block, FIELDS).Some?
    ensures Inside(block) ==> Inside(SetFields(block, FIELDS).value)
    ensures AllPlain(block) ==> AllPlain(SetFields(block, FIELDS).value)
  {
    SetFieldsInTurn(block);
    assert PROVIDER in FIELDS && DEFAULT in FIELDS && BASE_URL in FIELDS;
    var a := SetField(block, PROVIDER);
    SetFieldStaysInside(block, PROVIDER);
    SetFieldStaysInside(a.value, DEFAULT);
    SetFieldStaysInside(SetField(a.value, DEFAULT).value, BASE_URL);
  }

  /** A split is recognised: the parts determine where the block lies. */
  predicate Parted(p: Parts) {
    && p.head != [] && TrimEnd(p.head[|p.head| - 1]) == MODEL
    && (forall j | 0 <= j < |p.head| - 1 :: TrimEnd(p.head[j]) != MODEL)
    && (forall j | 0 <= j < |p.block| :: !EndsBlock(p.block[j]))
    && (p.tail != [] ==> EndsBlock(p.tail[0]))
  }

  lemma SplitIsParted(lines: seq<string>)
    ensures Parted(Split(lines))
  {
    var all := WithModel(lines);
    var start := FirstModel(all, 0).value;
    var end := BlockEnd(all, start + 1);
    assert forall j | 0 <= j < |Split(lines).block| :: Split(lines).block[j] == all[start + 1 + j];
  }

  lemma PartedIsSplit(p: Parts)
    requires Parted(p)
    ensures Split(p.head + p.block + p.tail) == p && WithModel(p.head + p.block + p.tail) == p.head + p.block + p.tail
  {
    hide TrimEnd, EndsBlock;
    var lines := p.head + p.block + p.tail;
    var h, e := |p.head|, |p.head| + |p.block|;
    ThreeParts(p.head, p.block, p.tail);
    FirstModelAt(lines, h - 1);
    BlockEndAt(lines, h, e);
    hide FirstModel, BlockEnd;
  }

  lemma ThreeParts(a: seq<string>, b: seq<string>, c: seq<string>)
    ensures var s := a + b + c; var h := |a|; var e := |a| + |b|;
            && s[..h] == a && s[h..e] == b && s[e..] == c
            && (forall j | 0 <= j < h :: s[j] == a[j]) && (forall j | h <= j < e :: s[j] == b[j - h])
            && (c != [] ==> s[e] == c[0])
  {}

  predicate NoTab(lines: seq<string>) {
    forall i | 0 <= i < |lines| :: '\t' !in lines[i]
  }

  lemma TabsStayOut(lines: seq<string>)
    requires NoTab(lines)
    ensures NoTab(WithModel(lines)) && (AllPlain(lines) ==> AllPlain(WithModel(lines)))
  {
    ModelIsClean();
    assert Plain("") && '\t' !in "";
    hide Plain;
    AppendStaysClean(lines, "");
    AppendStaysClean(lines + [""], MODEL);
    AppendStaysClean(lines, MODEL);
    assert lines + [] == lines;
  }

  lemma AppendStaysClean(lines: seq<string>, line: string)
    requires '\t' !in line && Plain(line)
    ensures NoTab(lines) ==> NoTab(lines + [line])
    ensures AllPlain(lines) ==> AllPlain(lines + [line])
  {}

  lemma ModelIsClean()
    ensures '\t' !in MODEL && Plain(MODEL)
  {}

  /** Updated lines: refused exactly for a tab or a field that stands twice; otherwise
      the block holds each field once with its value, all else is kept in order, and
      updating again changes nothing. */
  lemma YamlLinesAreRight(lines: seq<string>)
    ensures YamlLines(lines).None? <==>
              HasTab(lines) || exists f | f in FIELDS :: CountField(Split(lines).block, f) > 1
    ensures YamlLines(lines).Some? ==>
              var p := Split(lines); var q := Split(YamlLines(lines).value);
              && q.head == p.head && q.tail == p.tail && Kept(q.block) == Kept(p.block)
              && (forall f | f in FIELDS :: Holds(q.block, f))
              && YamlLines(lines).value == q.head + q.block + q.tail
              && YamlLines(YamlLines(lines).value) == YamlLines(lines)
              && (AllPlain(lines) ==> AllPlain(YamlLines(lines).value))
  {
    hide SetFields, Holds, CountField, Kept, Split, Plain;
    var p := Split(lines);
    BlockIsRight(p.block);
    if YamlLines(lines).Some? {
      var block := SetFields(p.block, FIELDS).value;
      SplitIsParted(lines);
      TabsStayOut(lines);
      PartsOf(lines);
      SetFieldsStayInside(p.block);
      var q := Parts(p.head, block, p.tail);
      var result := q.head + q.block + q.tail;
      PartedIsSplit(q);
      assert !HasTab(result);
    }
  }

  lemma PartsOf(lines: seq<string>)
    requires NoTab(WithModel(lines))
    ensures var p := Split(lines);
            && Inside(p.block) && NoTab(p.head) && NoTab(p.tail)
            && (AllPlain(WithModel(lines)) ==> AllPlain(p.head) && AllPlain(p.block) && AllPlain(p.tail))
  {
    SplitIsParted(lines);
    hide Split, WithModel, EndsBlock, Plain;
    var all, p := WithModel(lines), Split(lines);
    var h, e := |p.head|, |p.head| + |p.block|;
    forall j | 0 <= j < |p.block| ensures '\t' !in p.block[j] && p.block[j] == all[h + j] {
      assert (p.head + p.block + p.tail)[h + j] == p.block[j];
    }
    forall j | 0 <= j < |p.tail| ensures '\t' !in p.tail[j] && p.tail[j] == all[e + j] {
      assert (p.head + p.block + p.tail)[e + j] == p.tail[j];
    }
    forall j | 0 <= j < |p.head| ensures '\t' !in p.head[j] && p.head[j] == all[j] {
      assert (p.head + p.block + p.tail)[j] == p.head[j];
    }
  }

  /** On text without carriage returns a rewrite that succeeds is idempotent, and what
      is read back is right. */
  lemma UpdateYamlIsRight(existing: string)
    requires '\r' !in existing && UpdateYaml(existing).Some?
    ensures var result := UpdateYaml(existing).value;
            && UpdateYaml(result) == Some(result)
            && Lines(result) == YamlLines(Lines(existing)).value
            && forall f | f in FIELDS :: Holds(Split(Lines(result)).block, f)
  {
    hide YamlLines, Lines, Unlines, Holds, Split;
    LinesArePlain(existing);
    YamlLinesAreRight(Lines(existing));
    NeverEmpty(Lines(existing));
    LinesOfUnlines(YamlLines(Lines(existing)).value);
  }

  lemma NeverEmpty(lines: seq<string>)
    requires YamlLines(lines).Some?
    ensures YamlLines(lines).value != []
  {
    SplitIsParted(lines);
  }

  // ---- The rewrite in place ----------------------------------------------------------------

  /** The lines of the block that carry the field: how many, and the first. */
  method Matches(lines: seq<string>, from: nat, to: nat, f: Field) returns (count: nat, first: Option<nat>)
    requires from <= to <= |lines|
    ensures count == CountField(lines[from..to], f)
    ensures var p := FirstField(lines[from..to], f, 0);
            first == if p.Some? then Some(from + p.value) else None
  {
    count, first := 0, None;
    ghost var block := lines[from..to];
    for i := from to to
      invariant count == CountField(block[..i - from], f)
      invariant first.None? ==> forall j | 0 <= j < i - from :: !IsField(block[j], f)
      invariant first.Some? ==> from <= first.value < i && IsField(block[first.value - from], f)
                                && forall j | 0 <= j < first.value - from :: !IsField(block[j], f)
    {
      assert block[i - from] == lines[i];
      assert block[..i - from + 1][..i - from] == block[..i - from];
      if Prefix(f) <= lines[i] {
        count := count + 1;
        if first.None? {
          first := Some(i);
        }
      }
    }
    assert block[..to - from] == block;
  }

  /** One field: replaced where it stands in the block, or inserted behind it. */
  method Install(lines: seq<string>, start: nat, insertAt: nat, f: Field, ghost p: Parts, ghost block: seq<string>)
      returns (ok: bool, after: seq<string>, insertedAt: nat)
    requires start + 1 == |p.head| && insertAt == |p.head| + |block| && lines == p.head + block + p.tail
    ensures ok <==> SetField(block, f).Some?
    ensures ok ==> var next := SetField(block, f).value;
                   after == p.head + next + p.tail && insertedAt == |p.head| + |next|
  {
    hide CountField, FirstField;
    after, insertedAt := lines, insertAt;
    assert lines[start + 1..insertAt] == block;
    var count, first := Matches(lines, start + 1, insertAt, f);
    if count > 1 {
      return false, after, insertedAt;
    }
    if first.Some? {
      FirstFieldIsIn(block, f);
      after := lines[first.value := FieldLine(f)];
      assert after == p.head + block[first.value - |p.head| := FieldLine(f)] + p.tail;
    } else {
      after := lines[..insertAt] + [FieldLine(f)] + lines[insertAt..];
      assert after == p.head + (block + [FieldLine(f)]) + p.tail;
      insertedAt := insertAt + 1;
    }
    ok := true;
  }

  lemma FirstFieldIsIn(block: seq<string>, f: Field)
    ensures FirstField(block, f, 0).Some? ==> FirstField(block, f, 0).value < |block|
  {}

  /** `update_yaml`: lines are replaced and inserted in one list, front to back. */
  method RewriteYaml(existing: string) returns (result: Option<string>)
    ensures result == UpdateYaml(existing)
  {
    hide SetFields, SetField, Split, TrimEnd, Lines, Unlines;
    var lines := Lines(existing);
    if exists i | 0 <= i < |lines| :: '\t' in lines[i] {
      return None;
    }
    ghost var p := Split(lines);
    var start, insertAt;
    lines, start, insertAt := Locate(lines);
    ghost var block := p.block;
    NothingSet(p.block);
    assert FIELDS[..0] == [];
    var k := 0;
    while k < |FIELDS|
      invariant 0 <= k <= |FIELDS| && start + 1 == |p.head| && insertAt == |p.head| + |block|
      invariant lines == p.head + block + p.tail
      invariant SetFields(p.block, FIELDS[..k]) == Some(block)
    {
      assert FIELDS[..k + 1][..k] == FIELDS[..k] && FIELDS[..k + 1][k] == FIELDS[k];
      SetFieldsStep(p.block, FIELDS[..k + 1]);
      var ok;
      ok, lines, insertAt := Install(lines, start, insertAt, FIELDS[k], p, block);
      if !ok {
        RefusedForward(p.block, k + 1);
        return None;
      }
      block := SetField(block, FIELDS[k]).value;
      k := k + 1;
    }
    assert FIELDS[..|FIELDS|] == FIELDS;
    result := Some(Unlines(lines));
  }

  lemma NothingSet(block: seq<string>)
    ensures SetFields(block, []) == Some(block)
  {}

  lemma SetFieldsStep(block: seq<string>, fields: seq<Field>)
    requires fields != []
    ensures var before := SetFields(block, fields[..|fields| - 1]);
            SetFields(block, fields) == if before.None? then None else SetField(before.value, fields[|fields| - 1])
  {}

  lemma RefusedForward(block: seq<string>, k: nat)
    requires k <= |FIELDS| && SetFields(block, FIELDS[..k]).None?
    ensures SetFields(block, FIELDS).None?
    decreases |FIELDS| - k
  {
    if k == |FIELDS| {
      assert FIELDS[..k] == FIELDS;
    } else {
      assert FIELDS[..k + 1][..k] == FIELDS[..k];
      RefusedForward(block, k + 1);
    }
  }

  /** Finds or appends the model line, and the end of its block. */
  method Locate(existing: seq<string>) returns (lines: seq<string>, start: nat, end: nat)
    ensures lines == WithModel(existing)
    ensures var p := Split(existing); start + 1 == |p.head| && end == |p.head| + |p.block|
  {
    lines := existing;
    var found := FirstModel(lines, 0);
    if found.Some? {
      start := found.value;
    } else {
      if lines != [] && lines[|lines| - 1] != [] {
        lines := lines + [""];
      }
      lines := lines + [MODEL];
      start := |lines| - 1;
      assert TrimEnd(lines[start]) == MODEL;
      NoModelYet(existing, lines, start);
      FirstModelAt(lines, start);
    }
    ModelLineIsAtRoot(lines[start]);
    if White(lines[start][0]) {
      assert false;  // the check for an indented model line
    }
    end := BlockEnd(lines, start + 1);
  }

  lemma NoModelYet(existing: seq<string>, lines: seq<string>, start: nat)
    requires FirstModel(existing, 0).None? && lines == WithModel(existing) && start == |lines| - 1
    ensures forall j | 0 <= j < start :: TrimEnd(lines[j]) != MODEL
  {
    forall j | 0 <= j < start ensures TrimEnd(lines[j]) != MODEL {
      if j < |existing| {
        assert lines[j] == existing[j];
      } else {
        assert lines[j] == "";
      }
    }
  }
}
