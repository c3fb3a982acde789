/** The remembered last session (src/wldm/state.py): a writer, and a loader built on the INI reader. */
module LastSession {
  import opened Wrappers
  import opened IniFile
  import Utf8

  const MAX_FILE_SIZE := 4096
  const ALLOWED: Allowed := map["session" := {"username", "command"}]

  /** The text written by `save_last_session_file`. */
  function SaveText(username: string, command: string): string {
    "[session]" + ("\n" + ("username = " + username + ("\n" + ("command = " + command + ("\n" + "")))))
  }

  /** The file contents, or `None` where nothing is written because a value is missing. */
  function Save(username: string, command: string): Option<Utf8.Bytes> {
    if username == "" || command == "" then None else Some(Utf8.Encode(SaveText(username, command)))
  }

  function GetStr(sections: Sections, section: string, key: string): string {
    match Lookup(sections, section, key)
    case Some(value) => Strip(value)
    case None => ""
  }

  /** `load_last_session_file` on a readable regular file. */
  function Load(file: Utf8.Bytes): (string, string) {
    if |file| > MAX_FILE_SIZE then ("", "")
    else
      match Utf8.Decode(file)
      case None => ("", "")
      case Some(text) =>
        match Parse(text, ALLOWED, false, false)
        case Err(_) => ("", "")
        case Ok(sections) => (GetStr(sections, "session", "username"), GetStr(sections, "session", "command"))
  }

  predicate Storable(value: string) {
    Stripped(value) && OneLine(value)
  }

  lemma {:induction false} FirstLine(s: string, rest: string)
    requires OneLine(s)
    ensures Lines(s + ("\n" + rest)) == [s] + Lines(rest)
  {
    if s == "" {
      assert s + ("\n" + rest) == "\n" + rest;
      assert ("\n" + rest)[1..] == rest;
    } else {
      assert s[0] in s && forall c | c in s[1..] :: c in s;
      FirstLine(s[1..], rest);
      assert (s + ("\n" + rest))[1..] == s[1..] + ("\n" + rest);
      assert s == [s[0]] + s[1..];
    }
  }

  lemma BlankIsSpace()
    ensures IsSpace(' ')
  {
  }

  lemma StripPadded(word: string)
    requires word != "" && Stripped(word)
    ensures Strip(word + " ") == word && Strip(" " + word) == word
  {
    hide IsSpace;
    BlankIsSpace();
    assert (" " + word)[1..] == word;
    assert (word + " ")[..|word|] == word;
    assert StripLeft(word) == word && StripRight(word) == word;
  }

  predicate IsKey(key: string) {
    key != "" && forall c | c in key :: 'a' <= c <= 'z'
  }

  lemma PairLine(key: string, value: string)
    requires IsKey(key) && value != "" && Stripped(value)
    ensures Classify(key + " = " + value) == Pair(key, value)
  {
    hide Strip;
    var raw := key + " = " + value;
    var n := |key| + 1;
    assert key[0] in key && key[|key| - 1] in key;
    assert raw[0] == key[0] && raw[|raw| - 1] == value[|value| - 1];
    StripFixes(raw);
    assert raw[n] == '=';
    forall k | 0 <= k < n
      ensures raw[k] != '='
    {
      if k < |key| {
        assert raw[k] == key[k] && key[k] in key;
      }
    }
    assert IndexOf(raw, '=') == n;
    assert raw[..n] == key + " " && raw[n + 1..] == " " + value;
    StripPadded(key);
    StripPadded(value);
  }

  lemma HeaderLine()
    ensures Classify("[session]") == Header("session") && Classify("") == Blank
  {
    hide Strip;
    StripFixes("[session]");
    StripFixes("session");
    StripFixes("");
    assert "[session]"[1..8] == "session";
  }

  lemma SavedLines(username: string, command: string)
    requires OneLine(username) && OneLine(command)
    ensures Lines(SaveText(username, command))
            == ["[session]", "username = " + username, "command = " + command, ""]
  {
    var user, cmd := "username = " + username, "command = " + command;
    FirstLine("[session]", user + ("\n" + (cmd + ("\n" + ""))));
    assert OneLine(user) && OneLine(cmd);
    FirstLine(user, cmd + ("\n" + ""));
    FirstLine(cmd, "");
  }

  lemma SavedSections(username: string, command: string)
    requires username != "" && command != "" && Storable(username) && Storable(command)
    ensures Parse(SaveText(username, command), ALLOWED, false, false)
            == Ok(map["session" := map["username" := username, "command" := command]])
  {
    hide Classify, Lines, SaveText;
    var lines := Lines(SaveText(username, command));
    SavedLines(username, command);
    HeaderLine();
    PairLine("username", username);
    PairLine("command", command);
    assert "username" + " = " + username == "username = " + username;
    assert "command" + " = " + command == "command = " + command;
    var empty: map<string, string> := map[];
    var p1 := Parser(map["session" := empty], Some("session"), false);
    var p2 := p1.(parsed := map["session" := map["username" := username]]);
    var p3 := p1.(parsed := map["session" := map["username" := username, "command" := command]]);
    assert p1.parsed["session" := empty["username" := username]] == p2.parsed;
    assert p2.parsed["session" := p2.parsed["session"]["command" := command]] == p3.parsed;
    RunOne(lines, 0, START, p1);
    RunOne(lines, 1, p1, p2);
    RunOne(lines, 2, p2, p3);
    RunOne(lines, 3, p3, p3);
    assert lines[..4] == lines;
  }

  lemma RunOne(lines: seq<string>, i: nat, p: Parser, q: Parser)
    requires i < |lines| && Run(START, lines[..i], ALLOWED, false, false) == Ok(p)
    requires Step(p, Classify(lines[i]), ALLOWED, false, false) == Ok(q)
    ensures Run(START, lines[..i + 1], ALLOWED, false, false) == Ok(q)
  {
    hide Classify, Step;
    assert lines[..i + 1][..i] == lines[..i];
  }

  lemma LoadedIsStorable(file: Utf8.Bytes)
    ensures Storable(Load(file).0) && Storable(Load(file).1)
  {
    hide Strip, Lines, Utf8.Decode;
    if |file| <= MAX_FILE_SIZE && Utf8.Decode(file).Some? && Parse(Utf8.Decode(file).value, ALLOWED, false, false).Ok? {
      var text := Utf8.Decode(file).value;
      var sections := Parse(text, ALLOWED, false, false).value;
      forall key
        ensures Storable(GetStr(sections, "session", key))
      {
        ParsedIsLastAssigned(text, "session", key, ALLOWED, false, false);
        AssignedIsStripped(Lines(text), "session", key, ALLOWED);
        match Lookup(sections, "session", key)
        case Some(value) => StripFixes(value);
        case None =>
      }
    }
  }

  /**
   * Loading what was saved gives back both values exactly when the file is small enough and neither
   * value has surrounding white space or a line break; '=', '[', '#' and the like are no obstacle.
   */
  lemma LoadUndoesSave(username: string, command: string)
    requires username != "" && command != ""
    ensures Load(Save(username, command).value) == (username, command) <==>
              |Save(username, command).value| <= 4096 && Storable(username) && Storable(command)
  {
    hide SaveText, Strip, Parse;
    var file := Save(username, command).value;
    LoadedIsStorable(file);
    Utf8.DecodeEncode(SaveText(username, command));
    if Storable(username) && Storable(command) {
      SavedSections(username, command);
      StripFixes(username);
      StripFixes(command);
    }
  }
}
