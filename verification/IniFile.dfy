/** The INI reader of src/wldm/inifile.py. */
module IniFile {
  import opened Wrappers

  datatype Error =
    | EmptySectionName
    | UnknownSection(name: string)
    | MissingEquals
    | OutsideSection
    | EmptyKey
    | UnknownKey(key: string)

  type Sections = map<string, map<string, string>>
  type Allowed = map<string, set<string>>

  // ---------- text ----------

  /** `str.isspace` for one character. */
  predicate IsSpace(c: char) {
    || '\t' <= c <= '\r'
    || '\U{001C}' <= c <= ' '
    || c in {'\U{0085}', '\U{00A0}', '\U{1680}', '\U{2028}', '\U{2029}', '\U{202F}', '\U{205F}', '\U{3000}'}
    || '\U{2000}' <= c <= '\U{200A}'
  }

  function StripLeft(s: string): (r: string)
    ensures |r| <= |s| && r == s[|s| - |r|..]
    ensures r != "" ==> !IsSpace(r[0])
  {
    if s != "" && IsSpace(s[0]) then StripLeft(s[1..]) else s
  }

  function StripRight(s: string): (r: string)
    ensures |r| <= |s| && r == s[..|r|]
    ensures r != "" ==> !IsSpace(r[|r| - 1])
  {
    if s != "" && IsSpace(s[|s| - 1]) then StripRight(s[..|s| - 1]) else s
  }

  function Strip(s: string): string {
    StripRight(StripLeft(s))
  }

  /** `s` has no white space at either end. */
  predicate Stripped(s: string) {
    s == "" || (!IsSpace(s[0]) && !IsSpace(s[|s| - 1]))
  }

  lemma StripFixes(s: string)
    ensures Stripped(Strip(s))
    ensures Strip(s) == s <==> Stripped(s)
    ensures forall c | c in Strip(s) :: c in s
  {
    var l := StripLeft(s);
    var r := StripRight(l);
    if r != "" {
      assert l[0] == r[0];
    }
  }

  predicate IsBreak(c: char) {
    c == '\n' || c == '\r'
  }

  predicate OneLine(s: string) {
    forall c | c in s :: !IsBreak(c)
  }

  /**
   * The lines of a text opened with universal newlines. A "\r\n" pair counts as two breaks here: the
   * extra empty line is one that the parser skips.
   */
  function Lines(text: string): (lines: seq<string>)
    ensures lines != []
    ensures forall l | l in lines :: OneLine(l)
  {
    if text == "" then [""]
    else
      var rest := Lines(text[1..]);
      assert rest[0] in rest;
      if IsBreak(text[0]) then [""] + rest else [[text[0]] + rest[0]] + rest[1..]
  }

  function IndexOf(line: string, c: char): (i: nat)
    ensures i <= |line|
    ensures c !in line[..i]
    ensures i < |line| ==> line[i] == c
    ensures i < |line| <==> c in line
  {
    if line == "" || line[0] == c then 0 else 1 + IndexOf(line[1..], c)
  }

  // ---------- what one line says ----------

  datatype Line = Blank | Header(name: string) | Bad | Pair(key: string, value: string)

  predicate IsHeader(line: string) {
    line != "" && line[0] == '[' && line[|line| - 1] == ']'
  }

  /** The meaning of one raw line, before it is checked against what is allowed. */
  function Classify(raw: string): Line {
    var line := Strip(raw);
    if line == "" || line[0] == '#' || line[0] == ';' then Blank
    else if IsHeader(line) then Header(Strip(line[1..|line| - 1]))
    else if '=' !in line then Bad
    else
      var i := IndexOf(line, '=');
      Pair(Strip(line[..i]), Strip(line[i + 1..]))
  }

  // ---------- the parser ----------

  datatype Parser = Parser(parsed: Sections, current: Option<string>, skip: bool)

  const START := Parser(map[], None, false)

  function Step(p: Parser, line: Line, allowed: Allowed, lenientSections: bool, lenientKeys: bool): Result<Parser, Error> {
    match line
    case Blank => Ok(p)
    case Header(name) =>
      if name == "" then Err(EmptySectionName)
      else if name !in allowed then
        if lenientSections then Ok(p.(current := None, skip := true)) else Err(UnknownSection(name))
      else
        Ok(Parser(if name in p.parsed then p.parsed else p.parsed[name := map[]], Some(name), false))
    case Bad => Err(MissingEquals)
    case Pair(key, value) =>
      if p.current.None? then
        if p.skip then Ok(p) else Err(OutsideSection)
      else if key == "" then Err(EmptyKey)
      else
        var section := p.current.value;
        if section !in allowed || key !in allowed[section] then
          if lenientKeys then Ok(p) else Err(UnknownKey(key))
        else
          var known := if section in p.parsed then p.parsed[section] else map[];
          Ok(p.(parsed := p.parsed[section := known[key := value]]))
  }

  function Run(p: Parser, lines: seq<string>, allowed: Allowed, ls: bool, lk: bool): Result<Parser, Error> {
    if lines == [] then Ok(p)
    else
      var before :- Run(p, lines[..|lines| - 1], allowed, ls, lk);
      Step(before, Classify(lines[|lines| - 1]), allowed, ls, lk)
  }

  function Parse(text: string, allowed: Allowed, ls: bool, lk: bool): Result<Sections, Error> {
    var p :- Run(START, Lines(text), allowed, ls, lk);
    Ok(p.parsed)
  }

  /** The loop body of `parse_ini_file` on the three variables it carries from line to line. */
  method ParseLine(raw: string, p: Parser, allowed: Allowed, ignoreUnknownSections: bool, ignoreUnknownKeys: bool)
    returns (r: Result<Parser, Error>)
    requires p.current.Some? ==> p.current.value in allowed && p.current.value in p.parsed
    ensures r == Step(p, Classify(raw), allowed, ignoreUnknownSections, ignoreUnknownKeys)
    ensures r.Ok? && r.value.current.Some? ==>
              r.value.current.value in allowed && r.value.current.value in r.value.parsed
  {
    hide Strip, IndexOf, IsHeader;
    var parsed, current, skip := p.parsed, p.current, p.skip;
    var line := Strip(raw);
    if line == "" || line[0] == '#' || line[0] == ';' {
      return Ok(p);
    }
    if IsHeader(line) {
      HeaderLength(line);
      var name := Strip(line[1..|line| - 1]);
      if name == "" {
        return Err(EmptySectionName);
      }
      if name !in allowed {
        if ignoreUnknownSections {
          current, skip := None, true;
          return Ok(Parser(parsed, current, skip));
        }
        return Err(UnknownSection(name));
      }
      current, skip := Some(name), false;
      if name !in parsed {
        parsed := parsed[name := map[]];
      }
      return Ok(Parser(parsed, current, skip));
    }
    if '=' !in line {
      return Err(MissingEquals);
    }
    if current.None? {
      if skip {
        return Ok(p);
      }
      return Err(OutsideSection);
    }
    var split := IndexOf(line, '=');
    var key, value := Strip(line[..split]), Strip(line[split + 1..]);
    if key == "" {
      return Err(EmptyKey);
    }
    if key !in allowed[current.value] {
      if ignoreUnknownKeys {
        return Ok(p);
      }
      return Err(UnknownKey(key));
    }
    parsed := parsed[current.value := parsed[current.value][key := value]];
    r := Ok(Parser(parsed, current, skip));
  }

  /** `parse_ini_file`: the line-by-line loop. */
  method ParseIniFile(text: string, allowed: Allowed, ignoreUnknownSections: bool, ignoreUnknownKeys: bool)
    returns (r: Result<Sections, Error>)
    ensures r == Parse(text, allowed, ignoreUnknownSections, ignoreUnknownKeys)
  {
    hide Classify, Step, Lines;
    ghost var ls, lk := ignoreUnknownSections, ignoreUnknownKeys;
    var p := START;
    var lines := Lines(text);
    for i := 0 to |lines|
      invariant Run(START, lines[..i], allowed, ls, lk) == Ok(p)
      invariant p.current.Some? ==> p.current.value in allowed && p.current.value in p.parsed
    {
      assert lines[..i + 1][..i] == lines[..i];
      var next := ParseLine(lines[i], p, allowed, ignoreUnknownSections, ignoreUnknownKeys);
      if next.Err? {
        RunPrefixFails(lines, i + 1, allowed, ls, lk);
        return Err(next.error);
      }
      p := next.value;
    }
    assert lines[..|lines|] == lines;
    r := Ok(p.parsed);
  }

  lemma HeaderLength(line: string)
    requires IsHeader(line)
    ensures |line| >= 2
  {
  }

  lemma {:induction false} RunPrefixFails(lines: seq<string>, n: nat, allowed: Allowed, ls: bool, lk: bool)
    requires n <= |lines| && Run(START, lines[..n], allowed, ls, lk).Err?
    ensures Run(START, lines, allowed, ls, lk) == Run(START, lines[..n], allowed, ls, lk)
    decreases |lines|
  {
    hide Classify, Step;
    if n < |lines| {
      var m := |lines| - 1;
      assert lines[..m][..n] == lines[..n];
      RunPrefixFails(lines[..m], n, allowed, ls, lk);
    } else {
      assert lines[..n] == lines;
    }
  }

  // ---------- what the result holds ----------

  /** Section in force after `lines`: the last allowed header, unless an unknown one came later. */
  function SectionAfter(lines: seq<string>, allowed: Allowed): Option<string> {
    if lines == [] then None
    else
      match Classify(lines[|lines| - 1])
      case Header(name) => if name in allowed then Some(name) else None
      case _ => SectionAfter(lines[..|lines| - 1], allowed)
  }

  /** Value of the last assignment to `key` made while `section` was in force. */
  function LastAssigned(lines: seq<string>, section: string, key: string, allowed: Allowed): Option<string> {
    if lines == [] then None
    else
      var before := lines[..|lines| - 1];
      match Classify(lines[|lines| - 1])
      case Pair(k, v) =>
        if k == key && SectionAfter(before, allowed) == Some(section) then Some(v)
        else LastAssigned(before, section, key, allowed)
      case _ => LastAssigned(before, section, key, allowed)
  }

  function Lookup(sections: Sections, section: string, key: string): Option<string> {
    if section in sections && key in sections[section] then Some(sections[section][key]) else None
  }

  lemma {:induction false} RunHolds(lines: seq<string>, section: string, key: string, allowed: Allowed, ls: bool, lk: bool)
    requires Run(START, lines, allowed, ls, lk).Ok?
    ensures var p := Run(START, lines, allowed, ls, lk).value;
            && p.current == SectionAfter(lines, allowed)
            && (p.current.Some? ==> p.current.value in allowed && p.current.value in p.parsed)
            && Lookup(p.parsed, section, key)
               == (if section in allowed && key in allowed[section] then LastAssigned(lines, section, key, allowed) else None)
            && (section in p.parsed ==> section in allowed)
    decreases |lines|
  {
    hide Classify;
    if lines != [] {
      RunHolds(lines[..|lines| - 1], section, key, allowed, ls, lk);
    }
  }

  /**
   * The result holds, for every allowed section and key, exactly the last value assigned to it, and
   * nothing for any other name.
   */
  lemma ParsedIsLastAssigned(text: string, section: string, key: string, allowed: Allowed, ls: bool, lk: bool)
    ensures Parse(text, allowed, ls, lk).Ok? ==>
              Lookup(Parse(text, allowed, ls, lk).value, section, key)
              == if section in allowed && key in allowed[section] then LastAssigned(Lines(text), section, key, allowed)
                 else None
    ensures Parse(text, allowed, ls, lk).Ok? ==>
              forall s | s in Parse(text, allowed, ls, lk).value :: s in allowed
  {
    hide Lines;
    if Parse(text, allowed, ls, lk).Ok? {
      RunHolds(Lines(text), section, key, allowed, ls, lk);
      forall s | s in Parse(text, allowed, ls, lk).value
        ensures s in allowed
      {
        RunHolds(Lines(text), s, key, allowed, ls, lk);
      }
    }
  }

  lemma {:induction false} LenientRun(lines: seq<string>, allowed: Allowed, ls: bool, lk: bool)
    requires Run(START, lines, allowed, false, false).Ok?
    ensures Run(START, lines, allowed, ls, lk) == Run(START, lines, allowed, false, false)
    decreases |lines|
  {
    hide Classify;
    if lines != [] {
      LenientRun(lines[..|lines| - 1], allowed, ls, lk);
    }
  }

  /** Ignoring unknown names changes nothing for a text that is accepted without ignoring any. */
  lemma LenientAgreesWithStrict(text: string, allowed: Allowed, ls: bool, lk: bool)
    requires Parse(text, allowed, false, false).Ok?
    ensures Parse(text, allowed, ls, lk) == Parse(text, allowed, false, false)
  {
    hide Lines;
    LenientRun(Lines(text), allowed, ls, lk);
  }

  /** Every value taken from a text is one line without surrounding white space. */
  lemma {:induction false} AssignedIsStripped(lines: seq<string>, section: string, key: string, allowed: Allowed)
    requires forall l | l in lines :: OneLine(l)
    ensures var v := LastAssigned(lines, section, key, allowed);
            v.Some? ==> Stripped(v.value) && OneLine(v.value)
    decreases |lines|
  {
    if lines != [] {
      var before, last := lines[..|lines| - 1], lines[|lines| - 1];
      assert forall l | l in before :: l in lines;
      assert last in lines;
      AssignedIsStripped(before, section, key, allowed);
      ClassifiedValue(last);
    }
  }

  lemma ClassifiedValue(raw: string)
    requires OneLine(raw)
    ensures Classify(raw).Pair? ==> Stripped(Classify(raw).value) && OneLine(Classify(raw).value)
  {
    hide StripLeft, StripRight, IsSpace;
    var line := Strip(raw);
    StripFixes(raw);
    if Classify(raw).Pair? {
      var i := IndexOf(line, '=');
      StripFixes(line[i + 1..]);
      assert forall c | c in line[i + 1..] :: c in line;
    }
  }

  // ---------- what a line means ----------

  lemma {:induction false} StripIndent(indent: string, rest: string)
    requires rest != "" && !IsSpace(rest[0]) && forall c | c in indent :: IsSpace(c)
    ensures StripLeft(indent + rest) == rest
  {
    hide IsSpace;
    if indent == "" {
      assert indent + rest == rest;
    } else {
      assert indent[0] in indent && forall c | c in indent[1..] :: c in indent;
      StripIndent(indent[1..], rest);
      assert (indent + rest)[1..] == indent[1..] + rest;
    }
  }

  lemma {:induction false} StripBlank(indent: string)
    requires forall c | c in indent :: IsSpace(c)
    ensures Strip(indent) == ""
  {
    hide IsSpace;
    if indent != "" {
      assert indent[0] in indent && forall c | c in indent[1..] :: c in indent;
      StripBlank(indent[1..]);
    }
  }

  /** Blank lines and lines that begin with a hash sign or a semicolon, however indented, say nothing. */
  lemma CommentsSayNothing(indent: string, comment: string)
    requires forall c | c in indent :: IsSpace(c)
    requires comment != "" ==> comment[0] == '#' || comment[0] == ';'
    ensures Classify(indent + comment) == Blank
  {
    hide Strip;
    if comment == "" {
      assert indent + comment == indent;
      StripBlank(indent);
    } else {
      hide IsSpace;
      MarksAreNoSpace();
      StripIndent(indent, comment);
      StripFixes(indent + comment);
      FirstKept(indent + comment);
    }
  }

  lemma MarksAreNoSpace()
    ensures !IsSpace('#') && !IsSpace(';') && !IsSpace('[') && !IsSpace(']')
  {
  }

  lemma FirstKept(s: string)
    requires StripLeft(s) != ""
    ensures Strip(s) != "" && Strip(s)[0] == StripLeft(s)[0]
  {
    hide IsSpace;
    StripRightKeeps(StripLeft(s));
  }

  lemma {:induction false} StripRightKeeps(s: string)
    requires s != "" && !IsSpace(s[0])
    ensures StripRight(s) != ""
    decreases |s|
  {
    hide IsSpace;
    if IsSpace(s[|s| - 1]) {
      StripRightKeeps(s[..|s| - 1]);
    }
  }

  /** A line in brackets is a header, whatever else stands in it; one without an equals sign is an error. */
  lemma HeadersAndErrors(line: string)
    requires line != "" && Stripped(line) && line[0] != '#' && line[0] != ';'
    ensures Classify(line).Header? <==> |line| >= 2 && line[0] == '[' && line[|line| - 1] == ']'
    ensures Classify(line).Header? ==> Classify(line).name == Strip(line[1..|line| - 1])
    ensures Classify(line) == Bad <==> !Classify(line).Header? && '=' !in line
  {
    hide Strip;
    StripFixes(line);
  }

  lemma {:induction false} IndexSplits(key: string, value: string)
    requires '=' !in key
    ensures IndexOf(key + "=" + value, '=') == |key|
  {
    if key != "" {
      assert key[0] in key && forall c | c in key[1..] :: c in key;
      IndexSplits(key[1..], value);
      assert (key + "=" + value)[1..] == key[1..] + "=" + value;
    }
  }

  /** The key is what stands before the first equals sign, the value what stands after it, both stripped. */
  lemma FirstEqualsSplits(key: string, value: string)
    requires Stripped(key + "=" + value) && '=' !in key
    requires key != "" ==> key[0] !in "#;["
    ensures Classify(key + "=" + value) == Pair(Strip(key), Strip(value))
  {
    hide Strip;
    var line := key + "=" + value;
    StripFixes(line);
    assert line[|key|] == '=';
    assert line[..|key|] == key && line[|key| + 1..] == value;
    if key == "" {
      assert line[0] == '=';
    } else {
      assert line[0] == key[0];
    }
    IndexSplits(key, value);
  }

  // ---------- which texts are refused ----------

  predicate AnyHeader(lines: seq<string>) {
    exists i :: 0 <= i < |lines| && Classify(lines[i]).Header?
  }

  /** What is wrong with a line behind the lines `before`: a pair is skipped behind an unknown section only. */
  function Problem(before: seq<string>, line: Line, allowed: Allowed, ls: bool, lk: bool): Option<Error> {
    match line
    case Blank => None
    case Bad => Some(MissingEquals)
    case Header(name) =>
      if name == "" then Some(EmptySectionName)
      else if name !in allowed && !ls then Some(UnknownSection(name)) else None
    case Pair(key, _) =>
      match SectionAfter(before, allowed)
      case None => if AnyHeader(before) then None else Some(OutsideSection)
      case Some(section) =>
        if key == "" then Some(EmptyKey)
        else if section in allowed && key !in allowed[section] && !lk then Some(UnknownKey(key)) else None
  }

  function ProblemAt(lines: seq<string>, i: nat, allowed: Allowed, ls: bool, lk: bool): Option<Error>
    requires i < |lines|
  {
    Problem(lines[..i], Classify(lines[i]), allowed, ls, lk)
  }

  lemma {:induction false} SkipsBehindUnknown(lines: seq<string>, allowed: Allowed, ls: bool, lk: bool)
    requires Run(START, lines, allowed, ls, lk).Ok?
    ensures var p := Run(START, lines, allowed, ls, lk).value;
            && p.current == SectionAfter(lines, allowed) && (p.current.Some? ==> p.current.value in allowed)
            && (p.current.None? ==> (p.skip <==> AnyHeader(lines)))
    decreases |lines|
  {
    hide Classify;
    if lines != [] {
      var before, last := lines[..|lines| - 1], lines[|lines| - 1];
      SkipsBehindUnknown(before, allowed, ls, lk);
      if AnyHeader(before) {
        var i :| 0 <= i < |before| && Classify(before[i]).Header?;
        assert Classify(lines[i]).Header?;
      }
    }
  }

  /** Line `i` is the first that something is wrong with. */
  predicate FirstProblem(lines: seq<string>, i: nat, allowed: Allowed, ls: bool, lk: bool, error: Error) {
    && i < |lines| && ProblemAt(lines, i, allowed, ls, lk) == Some(error)
    && forall j: nat | j < i :: ProblemAt(lines, j, allowed, ls, lk).None?
  }

  /** The lines before the last have the problems that they have without it. */
  lemma ProblemsBefore(lines: seq<string>, i: nat, allowed: Allowed, ls: bool, lk: bool)
    requires i + 1 < |lines|
    ensures ProblemAt(lines, i, allowed, ls, lk) == ProblemAt(lines[..|lines| - 1], i, allowed, ls, lk)
  {
    hide Classify, Problem;
    assert lines[..|lines| - 1][..i] == lines[..i];
  }

  /** A text is refused exactly if some line of it is wrong, with what is wrong in the first of them. */
  lemma {:induction false} RefusedAtFirst(lines: seq<string>, allowed: Allowed, ls: bool, lk: bool) returns (first: nat)
    ensures var r := Run(START, lines, allowed, ls, lk);
            if r.Err? then FirstProblem(lines, first, allowed, ls, lk, r.error)
            else forall i: nat | i < |lines| :: ProblemAt(lines, i, allowed, ls, lk).None?
    decreases |lines|
  {
    hide Classify, Problem, Step, ProblemAt;
    first := 0;
    if lines != [] {
      var m := |lines| - 1;
      var before := lines[..m];
      first := RefusedAtFirst(before, allowed, ls, lk);
      forall i: nat | i < m
        ensures ProblemAt(lines, i, allowed, ls, lk) == ProblemAt(before, i, allowed, ls, lk)
      {
        ProblemsBefore(lines, i, allowed, ls, lk);
      }
      if Run(START, before, allowed, ls, lk).Ok? {
        LastRefuses(lines, allowed, ls, lk);
        first := m;
      }
    }
  }

  lemma LastRefuses(lines: seq<string>, allowed: Allowed, ls: bool, lk: bool)
    requires lines != [] && Run(START, lines[..|lines| - 1], allowed, ls, lk).Ok?
    ensures var r := Run(START, lines, allowed, ls, lk);
            ProblemAt(lines, |lines| - 1, allowed, ls, lk) == if r.Err? then Some(r.error) else None
  {
    hide Classify, Problem, Step;
    var before := lines[..|lines| - 1];
    SkipsBehindUnknown(before, allowed, ls, lk);
    StepRefuses(Run(START, before, allowed, ls, lk).value, before, Classify(lines[|lines| - 1]), allowed, ls, lk);
  }

  lemma StepRefuses(p: Parser, before: seq<string>, line: Line, allowed: Allowed, ls: bool, lk: bool)
    requires p.current == SectionAfter(before, allowed) && (p.current.Some? ==> p.current.value in allowed)
    requires p.current.None? ==> (p.skip <==> AnyHeader(before))
    ensures var r := Step(p, line, allowed, ls, lk);
            Problem(before, line, allowed, ls, lk) == if r.Err? then Some(r.error) else None
  {
    hide AnyHeader, SectionAfter;
  }
}
