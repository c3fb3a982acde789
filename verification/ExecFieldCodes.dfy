/**
 * Expansion of the field codes of a desktop entry's `Exec` key (Desktop Entry Specification, section
 * "The Exec key") as src/wldm/session/user.py performs it on the split command line.
 */
module ExecFieldCodes {
  import opened Wrappers

  datatype Error = DanglingMarker | EmbeddedIcon | Unsupported(code: char) | EmptyCommand

  /** The texts that %c, %i and %k stand for. */
  datatype Entry = Entry(name: string, icon: string, path: string)

  predicate IsDropped(code: char) {
    code in {'f', 'F', 'u', 'U', 'd', 'D', 'n', 'N', 'v', 'm'}
  }

  function CodeValue(code: char, e: Entry): Result<string, Error> {
    if code == '%' then Ok("%")
    else if IsDropped(code) then Ok("")
    else if code == 'c' then Ok(e.name)
    else if code == 'k' then Ok(e.path)
    else if code == 'i' then Err(EmbeddedIcon)
    else Err(Unsupported(code))
  }

  function ExpandArg(arg: string, e: Entry): Result<string, Error> {
    if arg == "" then Ok("")
    else if arg[0] != '%' then
      var rest :- ExpandArg(arg[1..], e);
      Ok([arg[0]] + rest)
    else if |arg| == 1 then Err(DanglingMarker)
    else
      var value :- CodeValue(arg[1], e);
      var rest :- ExpandArg(arg[2..], e);
      Ok(value + rest)
  }

  function Arguments(arg: string, e: Entry): Result<seq<string>, Error> {
    if arg == "%i" then Ok(if e.icon != "" then ["--icon", e.icon] else [])
    else
      var text :- ExpandArg(arg, e);
      Ok(if text != "" then [text] else [])
  }

  function ExpandAll(args: seq<string>, e: Entry): Result<seq<string>, Error> {
    if args == [] then Ok([])
    else
      var first :- Arguments(args[0], e);
      var rest :- ExpandAll(args[1..], e);
      Ok(first + rest)
  }

  function Expand(args: seq<string>, e: Entry): Result<seq<string>, Error> {
    var expanded :- ExpandAll(args, e);
    if expanded == [] then Err(EmptyCommand) else Ok(expanded)
  }

  // ---------- the loops of the source ----------

  function Prefixed<T>(done: seq<T>, r: Result<seq<T>, Error>): Result<seq<T>, Error> {
    match r
    case Ok(rest) => Ok(done + rest)
    case Err(error) => Err(error)
  }

  method ExpandArgLoop(arg: string, e: Entry) returns (r: Result<string, Error>)
    ensures r == ExpandArg(arg, e)
  {
    var expanded: string := "";
    var index := 0;
    PrefixedNothing(ExpandArg(arg, e));
    assert arg[0..] == arg;
    while index < |arg|
      invariant index <= |arg|
      invariant ExpandArg(arg, e) == Prefixed(expanded, ExpandArg(arg[index..], e))
    {
      var c := arg[index];
      assert arg[index..][1..] == arg[index + 1..];
      if c != '%' {
        LoopStep(expanded, [c], ExpandArg(arg[index + 1..], e));
        expanded := expanded + [c];
        index := index + 1;
      } else {
        if index + 1 >= |arg| {
          return Err(DanglingMarker);
        }
        assert arg[index..][2..] == arg[index + 2..];
        var value := CodeValue(arg[index + 1], e);
        if value.Err? {
          return Err(value.error);
        }
        LoopStep(expanded, value.value, ExpandArg(arg[index + 2..], e));
        expanded := expanded + value.value;
        index := index + 2;
      }
    }
    assert expanded + "" == expanded;
    r := Ok(expanded);
  }

  lemma PrefixedNothing<T>(r: Result<seq<T>, Error>)
    ensures Prefixed([], r) == r
  {
    if r.Ok? {
      assert [] + r.value == r.value;
    }
  }

  lemma LoopStep<T>(done: seq<T>, piece: seq<T>, r: Result<seq<T>, Error>)
    ensures Prefixed(done, Prefixed(piece, r)) == Prefixed(done + piece, r)
  {
    if r.Ok? {
      assert done + (piece + r.value) == (done + piece) + r.value;
    }
  }

  method ExpandFieldCodes(args: seq<string>, e: Entry) returns (r: Result<seq<string>, Error>)
    ensures r == Expand(args, e)
  {
    hide ExpandArg;
    var expanded: seq<string> := [];
    PrefixedNothing(ExpandAll(args, e));
    assert args[0..] == args;
    for i := 0 to |args|
      invariant ExpandAll(args, e) == Prefixed(expanded, ExpandAll(args[i..], e))
    {
      var arg := args[i];
      assert args[i..][1..] == args[i + 1..];
      ghost var rest := ExpandAll(args[i + 1..], e);
      if arg == "%i" {
        if e.icon != "" {
          LoopStep(expanded, ["--icon", e.icon], rest);
          expanded := expanded + ["--icon", e.icon];
        } else {
          LoopStep(expanded, [], rest);
          assert expanded + [] == expanded;
        }
      } else {
        var text := ExpandArgLoop(arg, e);
        if text.Err? {
          return Err(text.error);
        }
        if text.value != "" {
          LoopStep(expanded, [text.value], rest);
          expanded := expanded + [text.value];
        } else {
          LoopStep(expanded, [], rest);
          assert expanded + [] == expanded;
        }
      }
    }
    assert expanded + [] == expanded;
    r := if expanded == [] then Err(EmptyCommand) else Ok(expanded);
  }

  // ---------- the grammar ----------

  /** The codes for files and URLs, the deprecated ones among them: nothing is passed, so they vanish. */
  const DROPPED := {'f', 'F', 'u', 'U', 'd', 'D', 'n', 'N', 'v', 'm'}

  /** One element of a well-formed argument: an ordinary character or a field code. */
  datatype Token = Literal(c: char) | Percent | Dropped(code: char) | Name | Path {
    predicate Valid() {
      (Literal? ==> c != '%') && (Dropped? ==> code in DROPPED)
    }

    function Text(): string {
      match this
      case Literal(c) => [c]
      case Percent => "%%"
      case Dropped(code) => ['%', code]
      case Name => "%c"
      case Path => "%k"
    }

    /** What the token contributes; names and paths are inserted as they are, never scanned again. */
    function Meaning(e: Entry): string {
      match this
      case Literal(c) => [c]
      case Percent => "%"
      case Dropped(_) => ""
      case Name => e.name
      case Path => e.path
    }
  }

  predicate ValidTokens(tokens: seq<Token>) {
    forall t | t in tokens :: t.Valid()
  }

  function Written(tokens: seq<Token>): string {
    if tokens == [] then "" else tokens[0].Text() + Written(tokens[1..])
  }

  function Meant(tokens: seq<Token>, e: Entry): string {
    if tokens == [] then "" else tokens[0].Meaning(e) + Meant(tokens[1..], e)
  }

  /** A text cannot be continued past here: a lone marker, an embedded icon or an unknown code. */
  predicate Stuck(tail: string, error: Error) {
    || (tail == "%" && error == DanglingMarker)
    || (|tail| >= 2 && tail[0] == '%' && tail[1] == 'i' && error == EmbeddedIcon)
    || (|tail| >= 2 && tail[0] == '%' && tail[1] !in {'%', 'c', 'k', 'i'} && tail[1] !in DROPPED
        && error == Unsupported(tail[1]))
  }

  lemma ExpandToken(t: Token, tail: string, e: Entry)
    requires t.Valid()
    ensures ExpandArg(t.Text() + tail, e) == Prefixed(t.Meaning(e), ExpandArg(tail, e))
  {
    var arg := t.Text() + tail;
    assert arg[|t.Text()|..] == tail;
    assert arg[0] == t.Text()[0];
    if t.Dropped? {
      PrefixedNothing(ExpandArg(tail, e));
    }
  }

  lemma {:induction false} ExpandWritten(tokens: seq<Token>, tail: string, e: Entry)
    requires ValidTokens(tokens)
    ensures ExpandArg(Written(tokens) + tail, e) == Prefixed(Meant(tokens, e), ExpandArg(tail, e))
  {
    hide ExpandArg;
    if tokens == [] {
      assert "" + tail == tail;
      PrefixedNothing(ExpandArg(tail, e));
    } else {
      var t, rest := tokens[0], tokens[1..];
      assert t in tokens && forall x | x in rest :: x in tokens;
      ExpandWritten(rest, tail, e);
      assert Written(tokens) + tail == t.Text() + (Written(rest) + tail);
      ExpandToken(t, Written(rest) + tail, e);
      LoopStep(t.Meaning(e), Meant(rest, e), ExpandArg(tail, e));
    }
  }

  /** Reads an argument as tokens followed by nothing or by a stuck tail. */
  lemma {:induction false} Tokenise(arg: string, e: Entry) returns (tokens: seq<Token>, tail: string)
    ensures ValidTokens(tokens) && arg == Written(tokens) + tail
    ensures tail == "" || exists error :: Stuck(tail, error)
    decreases |arg|
  {
    if arg == "" {
      tokens, tail := [], "";
    } else if arg[0] != '%' {
      var rest, t := Tokenise(arg[1..], e);
      tokens, tail := [Literal(arg[0])] + rest, t;
      assert tokens[1..] == rest;
    } else if |arg| == 1 {
      tokens, tail := [], arg;
      assert Stuck(tail, DanglingMarker);
    } else if CodeValue(arg[1], e).Err? {
      tokens, tail := [], arg;
      assert Stuck(tail, CodeValue(arg[1], e).error);
    } else {
      var rest, t := Tokenise(arg[2..], e);
      var token := if arg[1] == '%' then Percent else if arg[1] == 'c' then Name else if arg[1] == 'k' then Path
                   else Dropped(arg[1]);
      tokens, tail := [token] + rest, t;
      assert tokens[1..] == rest;
    }
  }

  lemma StuckFails(tail: string, error: Error, e: Entry)
    requires Stuck(tail, error)
    ensures ExpandArg(tail, e) == Err(error)
  {
  }

  lemma NothingExpands(e: Entry)
    ensures ExpandArg("", e) == Ok("")
  {
  }

  /** An argument expands exactly to the meanings of the tokens it is written with. */
  lemma ExpandsByGrammar(arg: string, text: string, e: Entry)
    ensures ExpandArg(arg, e) == Ok(text) <==>
              exists tokens :: ValidTokens(tokens) && Written(tokens) == arg && Meant(tokens, e) == text
  {
    hide ExpandArg, Stuck;
    NothingExpands(e);
    if ExpandArg(arg, e) == Ok(text) {
      var tokens, tail := Tokenise(arg, e);
      ExpandWritten(tokens, tail, e);
      if tail != "" {
        var error :| Stuck(tail, error);
        StuckFails(tail, error, e);
      }
      assert Written(tokens) + "" == Written(tokens) && Meant(tokens, e) + "" == Meant(tokens, e);
    }
    if tokens :| ValidTokens(tokens) && Written(tokens) == arg && Meant(tokens, e) == text {
      ExpandWritten(tokens, "", e);
      assert Written(tokens) + "" == Written(tokens) && Meant(tokens, e) + "" == Meant(tokens, e);
    }
  }

  /** Expansion of one argument fails exactly on a stuck tail behind well-formed tokens. */
  lemma ArgumentFailsExactly(arg: string, error: Error, e: Entry)
    ensures ExpandArg(arg, e) == Err(error) <==>
              exists tokens, tail :: ValidTokens(tokens) && arg == Written(tokens) + tail && Stuck(tail, error)
  {
    hide ExpandArg, Stuck;
    NothingExpands(e);
    if ExpandArg(arg, e) == Err(error) {
      var tokens, tail := Tokenise(arg, e);
      ExpandWritten(tokens, tail, e);
      if tail != "" {
        var other :| Stuck(tail, other);
        StuckFails(tail, other, e);
      }
      assert Stuck(tail, error);
    }
    if tokens, tail :| ValidTokens(tokens) && arg == Written(tokens) + tail && Stuck(tail, error) {
      ExpandWritten(tokens, tail, e);
      StuckFails(tail, error, e);
    }
  }

  // ---------- whole command lines ----------

  /** Every produced argument is nonempty, and there is at least one. */
  lemma ResultIsACommand(args: seq<string>, e: Entry)
    ensures Expand(args, e).Ok? ==>
              Expand(args, e).value != [] && forall a | a in Expand(args, e).value :: a != ""
  {
    NonemptyArguments(args, e);
  }

  lemma {:induction false} NonemptyArguments(args: seq<string>, e: Entry)
    ensures ExpandAll(args, e).Ok? ==> forall a | a in ExpandAll(args, e).value :: a != ""
  {
    if args != [] {
      NonemptyArguments(args[1..], e);
    }
  }

  lemma {:induction false} ExpandsApart(a: seq<string>, b: seq<string>, e: Entry)
    ensures ExpandAll(a + b, e) ==
            match (ExpandAll(a, e), ExpandAll(b, e))
            case (Err(error), _) => Err(error)
            case (Ok(_), Err(error)) => Err(error)
            case (Ok(x), Ok(y)) => Ok(x + y)
  {
    hide Arguments;
    if a == [] {
      assert a + b == b;
      if ExpandAll(b, e).Ok? {
        assert [] + ExpandAll(b, e).value == ExpandAll(b, e).value;
      }
    } else {
      ExpandsApart(a[1..], b, e);
      assert (a + b)[1..] == a[1..] + b;
      if Arguments(a[0], e).Ok? && ExpandAll(a[1..], e).Ok? && ExpandAll(b, e).Ok? {
        assert Arguments(a[0], e).value + (ExpandAll(a[1..], e).value + ExpandAll(b, e).value)
            == (Arguments(a[0], e).value + ExpandAll(a[1..], e).value) + ExpandAll(b, e).value;
      }
    }
  }

  /** A `%i` that stands alone is replaced by the two arguments of the icon, or by none if there is no icon. */
  lemma IconArguments(a: seq<string>, b: seq<string>, e: Entry)
    requires ExpandAll(a, e).Ok? && ExpandAll(b, e).Ok?
    ensures ExpandAll(a + (["%i"] + b), e) ==
            Ok(ExpandAll(a, e).value + ((if e.icon == "" then [] else ["--icon", e.icon]) + ExpandAll(b, e).value))
  {
    hide ExpandArg;
    ExpandsApart(a, ["%i"] + b, e);
    ExpandsApart(["%i"], b, e);
    assert ["%i"][1..] == [];
    assert ExpandAll(["%i"], e) == Ok((if e.icon == "" then [] else ["--icon", e.icon]) + []);
    assert (if e.icon == "" then [] else ["--icon", e.icon]) + [] == if e.icon == "" then [] else ["--icon", e.icon];
  }

  predicate Fails(arg: string, e: Entry) {
    arg != "%i" && ExpandArg(arg, e).Err?
  }

  predicate Vanishes(arg: string, e: Entry) {
    if arg == "%i" then e.icon == "" else ExpandArg(arg, e) == Ok("")
  }

  /** The command line fails exactly when one of its arguments does or all of them vanish. */
  lemma FailsExactly(args: seq<string>, e: Entry)
    ensures Expand(args, e).Err? <==>
              (exists a :: a in args && Fails(a, e)) || (forall a | a in args :: Vanishes(a, e))
  {
    AllFails(args, e);
  }

  lemma {:induction false} AllFails(args: seq<string>, e: Entry)
    ensures ExpandAll(args, e).Err? <==> exists a :: a in args && Fails(a, e)
    ensures ExpandAll(args, e) == Ok([]) <==> forall a | a in args :: Vanishes(a, e)
  {
    hide ExpandArg;
    if args != [] {
      var first, rest := args[0], args[1..];
      AllFails(rest, e);
      assert first in args && forall a :: a in args <==> a == first || a in rest;
      assert Arguments(first, e).Err? <==> Fails(first, e);
      assert Arguments(first, e) == Ok([]) <==> Vanishes(first, e);
      if ExpandAll(args, e).Ok? {
        var f, r := Arguments(first, e).value, ExpandAll(rest, e).value;
        assert f + r == [] <==> f == [] && r == [];
      }
    }
  }

  function Escape(arg: string): string {
    if arg == "" then "" else (if arg[0] == '%' then "%%" else [arg[0]]) + Escape(arg[1..])
  }

  function EscapeAll(args: seq<string>): seq<string> {
    if args == [] then [] else [Escape(args[0])] + EscapeAll(args[1..])
  }

  lemma {:induction false} EscapeUndone(arg: string, e: Entry)
    ensures ExpandArg(Escape(arg), e) == Ok(arg)
    ensures Escape(arg) != "%i"
  {
    if arg != "" {
      EscapeUndone(arg[1..], e);
      var head: string := if arg[0] == '%' then "%%" else [arg[0]];
      assert Escape(arg)[|head|..] == Escape(arg[1..]);
      assert arg == [arg[0]] + arg[1..];
      assert Escape(arg)[0] == '%' ==> Escape(arg)[1] == '%';
    }
  }

  /** Doubling every percent sign protects any list of nonempty arguments from expansion. */
  lemma DoublingIsUndone(args: seq<string>, e: Entry)
    requires args != [] && forall a | a in args :: a != ""
    ensures Expand(EscapeAll(args), e) == Ok(args)
  {
    DoublingAll(args, e);
  }

  lemma {:induction false} DoublingAll(args: seq<string>, e: Entry)
    requires forall a | a in args :: a != ""
    ensures ExpandAll(EscapeAll(args), e) == Ok(args)
  {
    hide ExpandArg, Escape;
    if args != [] {
      EscapeUndone(args[0], e);
      assert forall a | a in args[1..] :: a in args;
      assert args[0] in args;
      DoublingAll(args[1..], e);
      assert EscapeAll(args)[1..] == EscapeAll(args[1..]);
      assert args == [args[0]] + args[1..];
    }
  }
}
