/** What the command reader should do with a whole input, read off the input itself. */
module CommandSpec {

  datatype Option<T> = None | Some(value: T)

  datatype File = RegularFile(data: string) | OtherFile

  /** The directory the program runs in: what each name holds, and the names whose open for writing
      fails. */
  datatype Env = Env(files: map<string, File>, blocked: set<string>)

  datatype Message = NoMessage | InvalidCommand | OperationFailed

  /** How the program ends. target is the file opened for writing with the bytes written to it.
      Overflow stands for the undefined behaviour of a word that does not fit its buffer. */
  datatype Outcome =
    | Exit(code: int, stderr: Message, stdout: string, target: Option<(string, string)>)
    | Overflow

  const WORD_MAX := 8191
  const PATH_MAX := 4096

  function Invalid(target: Option<(string, string)>): Outcome {
    Exit(1, InvalidCommand, "", target)
  }

  function Failed(target: Option<(string, string)>): Outcome {
    Exit(1, OperationFailed, "", target)
  }

  /** A word ends at a space, a file name also at a newline. */
  predicate Stops(c: char, newline: bool) {
    c == ' ' || (newline && c == '\n')
  }

  /** The length of the word at the front of s. */
  function WordEnd(s: string, newline: bool): (n: nat)
    ensures n <= |s| && (n < |s| ==> Stops(s[n], newline))
    ensures forall i :: 0 <= i < n ==> !Stops(s[i], newline)
  {
    if s == "" || Stops(s[0], newline) then 0 else 1 + WordEnd(s[1..], newline)
  }

  /** Appending a NUL to a C string appends nothing. */
  function Strip(s: string): (r: string)
    ensures |r| <= |s| && '\0' !in r
  {
    if s == "" then "" else (if s[0] == '\0' then "" else [s[0]]) + Strip(s[1..])
  }

  /** A name with a slash, or with a backslash before a zero. */
  predicate Refused(name: string) {
    exists i :: 0 <= i < |name| &&
      (name[i] == '/' || (i + 1 < |name| && name[i] == '\\' && name[i + 1] == '0'))
  }

  /** The name stop ended cannot be used. */
  predicate BadName(name: string, stop: char) {
    stop == ' ' || name == "" || |name| > PATH_MAX || Refused(name)
  }

  /** How far an input goes: into the command, into the name, or past the name, which stop ended. */
  datatype Progress =
    | InCommand(word: string)
    | InName(command: string, word: string)
    | Named(command: string, name: string, stop: char, rest: string)
    | TooLong

  /** The command runs to the first space, the name from there to the next space or newline. */
  function Parse(input: string): Progress {
    var i := WordEnd(input, false);
    EndCommand(Strip(input[..i]), input[i..])
  }

  /** The command so far is word; tail is what is left from the space that ended it, if one did. */
  function EndCommand(word: string, tail: string): Progress {
    if |word| > WORD_MAX then TooLong
    else if tail == "" then InCommand(word)
    else ParseName(word, tail[1..])
  }

  function ParseName(command: string, input: string): Progress {
    var j := WordEnd(input, true);
    EndName(command, Strip(input[..j]), input[j..])
  }

  /** The same for the name. */
  function EndName(command: string, word: string, tail: string): Progress {
    if |word| > WORD_MAX then TooLong
    else if tail == "" then InName(command, word)
    else Named(command, word, tail[0], tail[1..])
  }

  /** What the program owes an input it has read to the end. readFails says that this end is a read
      error instead of an end of file. */
  function Served(p: Progress, env: Env, readFails: bool): Outcome {
    match p
    case TooLong => Overflow
    case InCommand(_) => if readFails then Failed(None) else Invalid(None)
    case InName(_, _) => if readFails then Failed(None) else Invalid(None)
    case Named(command, name, stop, rest) =>
      var bad := BadName(name, stop);
      if command == "set" && !bad then
        if name in env.blocked then Failed(None)
        else if readFails then Failed(Some((name, rest)))
        else Exit(0, NoMessage, "OK\n", Some((name, rest)))
      else if readFails then Failed(None)
      else if command == "get" && !bad && rest == ""
              && name in env.files && env.files[name].RegularFile? then
        Exit(0, NoMessage, env.files[name].data, None)
      else Invalid(None)
  }

  function OneShot(input: string, env: Env, readFails: bool): Outcome {
    Served(Parse(input), env, readFails)
  }

  lemma {:induction false} WordEndConcat(s: string, t: string, newline: bool)
    ensures WordEnd(s + t, newline)
         == if WordEnd(s, newline) < |s| then WordEnd(s, newline) else |s| + WordEnd(t, newline)
  {
    if s == "" {
      assert s + t == t;
    } else {
      assert (s + t)[1..] == s[1..] + t;
      WordEndConcat(s[1..], t, newline);
    }
  }

  lemma {:induction false} StripConcat(s: string, t: string)
    ensures Strip(s + t) == Strip(s) + Strip(t)
  {
    if s == "" {
      assert s + t == t;
    } else {
      assert (s + t)[1..] == s[1..] + t;
      StripConcat(s[1..], t);
    }
  }

  /** One more character of a prefix. */
  lemma StripNext(s: string, pos: nat)
    requires pos < |s|
    ensures Strip(s[..pos + 1]) == Strip(s[..pos]) + if s[pos] == '\0' then "" else [s[pos]]
  {
    StripConcat(s[..pos], [s[pos]]);
    assert s[..pos + 1] == s[..pos] + [s[pos]];
  }

  lemma StripGrows(s: string, pos: nat, end: nat)
    requires pos <= end <= |s|
    ensures |Strip(s[..pos])| <= |Strip(s[..end])|
  {
    StripConcat(s[..pos], s[pos..end]);
    assert s[..end] == s[..pos] + s[pos..end];
  }

  lemma {:induction false} WordEndIs(s: string, n: nat, newline: bool)
    requires n < |s| && Stops(s[n], newline) && forall i :: 0 <= i < n ==> !Stops(s[i], newline)
    ensures WordEnd(s, newline) == n
  {
    if n > 0 { WordEndIs(s[1..], n - 1, newline); }
  }

  lemma {:induction false} NothingToStrip(s: string)
    requires '\0' !in s
    ensures Strip(s) == s
  {
    if s != "" {
      assert s[0] in s && forall c :: c in s[1..] ==> c in s;
      NothingToStrip(s[1..]);
    }
  }

  lemma ParseNamePart(command: string, name: string, body: string)
    requires ' ' !in name && '\n' !in name && '\0' !in name && |name| <= WORD_MAX
    ensures ParseName(command, name + "\n" + body) == Named(command, name, '\n', body)
  {
    var rest := name + "\n" + body;
    WordEndIs(rest, |name|, true);
    assert rest[..|name|] == name && rest[|name| + 1..] == body;
    NothingToStrip(name);
  }

  /** A command word, a space, a usable name, a newline and a body are taken apart again. */
  lemma ParseCommand(command: string, name: string, body: string)
    requires |command| <= WORD_MAX && ' ' !in command && '\0' !in command
    requires ' ' !in name && '\n' !in name && '\0' !in name && |name| <= WORD_MAX
    ensures Parse(command + " " + (name + "\n" + body)) == Named(command, name, '\n', body)
  {
    var rest := name + "\n" + body;
    var input := command + " " + rest;
    WordEndIs(input, |command|, false);
    assert input[..|command|] == command && input[|command| + 1..] == rest;
    NothingToStrip(command);
    ParseNamePart(command, name, body);
  }

  function SetInput(name: string, body: string): string {
    "set" + " " + (name + "\n" + body)
  }

  function GetInput(name: string): string {
    "get" + " " + (name + "\n" + "")
  }

  lemma ParseInputs(name: string, body: string)
    requires ' ' !in name && '\n' !in name && '\0' !in name && |name| <= PATH_MAX
    ensures Parse(SetInput(name, body)) == Named("set", name, '\n', body)
    ensures Parse(GetInput(name)) == Named("get", name, '\n', "")
  {
    ParseCommand("set", name, body);
    ParseCommand("get", name, "");
  }

  /** The directory after the program has ended with outcome o. */
  function Directory(env: Env, o: Outcome): Env {
    match o
    case Exit(_, _, _, Some(target)) => env.(files := env.files[target.0 := RegularFile(target.1)])
    case _ => env
  }

  lemma RunSet(name: string, body: string, env: Env)
    requires !BadName(name, '\n') && name !in env.blocked
    ensures Served(Named("set", name, '\n', body), env, false) == Exit(0, NoMessage, "OK\n", Some((name, body)))
  {
  }

  lemma RunGet(name: string, body: string, env: Env)
    requires !BadName(name, '\n') && name in env.files && env.files[name] == RegularFile(body)
    ensures Served(Named("get", name, '\n', ""), env, false) == Exit(0, NoMessage, body, None)
  {
  }

  /** A set command stores its body under its name and nothing else, and a get command run in the
      directory it leaves prints that body. */
  lemma SetThenGet(name: string, body: string, env: Env)
    requires ' ' !in name && '\n' !in name && '\0' !in name
    requires !BadName(name, '\n') && name !in env.blocked
    ensures var set_ := OneShot(SetInput(name, body), env, false);
      && set_ == Exit(0, NoMessage, "OK\n", Some((name, body)))
      && Directory(env, set_).files == env.files[name := RegularFile(body)]
      && OneShot(GetInput(name), Directory(env, set_), false) == Exit(0, NoMessage, body, None)
  {
    ParseInputs(name, body);
    RunSet(name, body, env);
    RunGet(name, body, Directory(env, Exit(0, NoMessage, "OK\n", Some((name, body)))));
  }

  /** Where one more chunk takes a parse. */
  function Extend(p: Progress, chunk: string): Progress {
    match p
    case TooLong => TooLong
    case InCommand(word) =>
      var i := WordEnd(chunk, false);
      EndCommand(word + Strip(chunk[..i]), chunk[i..])
    case InName(command, word) => ExtendName(command, word, chunk)
    case Named(command, name, stop, rest) => Named(command, name, stop, rest + chunk)
  }

  function ExtendName(command: string, word: string, chunk: string): Progress {
    var j := WordEnd(chunk, true);
    EndName(command, word + Strip(chunk[..j]), chunk[j..])
  }

  /** A word that ended stays as it is when more input follows. */
  lemma WordStays(s: string, t: string, newline: bool)
    requires WordEnd(s, newline) < |s|
    ensures var n := WordEnd(s, newline);
      && WordEnd(s + t, newline) == n && (s + t)[..n] == s[..n] && (s + t)[n..] == s[n..] + t
  {
    WordEndConcat(s, t, newline);
  }

  /** A word that did not end goes on into what follows. */
  lemma WordGoesOn(s: string, t: string, newline: bool)
    requires WordEnd(s, newline) == |s|
    ensures var n := WordEnd(t, newline);
      && WordEnd(s + t, newline) == |s| + n && Strip((s + t)[..|s| + n]) == Strip(s) + Strip(t[..n])
      && (s + t)[|s| + n..] == t[n..]
  {
    var n := WordEnd(t, newline);
    WordEndConcat(s, t, newline);
    assert (s + t)[..|s| + n] == s + t[..n];
    StripConcat(s, t[..n]);
  }

  lemma NameStays(command: string, word: string, tail: string, chunk: string)
    requires tail != ""
    ensures EndName(command, word, tail + chunk) == Extend(EndName(command, word, tail), chunk)
  {
    assert (tail + chunk)[1..] == tail[1..] + chunk;
  }

  lemma OpenName(command: string, input: string)
    requires WordEnd(input, true) == |input|
    ensures ParseName(command, input) == EndName(command, Strip(input), "")
  {
    assert input[..|input|] == input;
    assert input[|input|..] == "";
  }

  lemma OpenNameThen(command: string, input: string, chunk: string)
    requires WordEnd(input, true) == |input|
    ensures var n := WordEnd(chunk, true);
      ParseName(command, input + chunk) == EndName(command, Strip(input) + Strip(chunk[..n]), chunk[n..])
  {
    WordGoesOn(input, chunk, true);
  }

  lemma ExtendOpenName(command: string, word: string, chunk: string)
    ensures var n := WordEnd(chunk, true);
      Extend(EndName(command, word, ""), chunk) == EndName(command, word + Strip(chunk[..n]), chunk[n..])
  {
  }

  lemma NameGoesOn(command: string, input: string, chunk: string)
    requires WordEnd(input, true) == |input|
    ensures ParseName(command, input + chunk) == Extend(ParseName(command, input), chunk)
  {
    OpenName(command, input);
    OpenNameThen(command, input, chunk);
    ExtendOpenName(command, Strip(input), chunk);
  }

  lemma ParseNameExtend(command: string, input: string, chunk: string)
    ensures ParseName(command, input + chunk) == Extend(ParseName(command, input), chunk)
  {
    var j := WordEnd(input, true);
    if j < |input| {
      WordStays(input, chunk, true);
      NameStays(command, Strip(input[..j]), input[j..], chunk);
    } else {
      NameGoesOn(command, input, chunk);
    }
  }

  lemma FreshName(command: string, input: string)
    ensures ParseName(command, input) == ExtendName(command, "", input)
  {
    var w := Strip(input[..WordEnd(input, true)]);
    assert "" + w == w;
  }

  lemma CommandStays(word: string, tail: string, chunk: string)
    requires tail != ""
    ensures EndCommand(word, tail + chunk) == Extend(EndCommand(word, tail), chunk)
  {
    assert (tail + chunk)[1..] == tail[1..] + chunk;
    ParseNameExtend(word, tail[1..], chunk);
  }

  lemma OpenCommand(input: string)
    requires WordEnd(input, false) == |input|
    ensures Parse(input) == EndCommand(Strip(input), "")
  {
    assert input[..|input|] == input;
    assert input[|input|..] == "";
  }

  lemma OpenCommandThen(input: string, chunk: string)
    requires WordEnd(input, false) == |input|
    ensures var n := WordEnd(chunk, false);
      Parse(input + chunk) == EndCommand(Strip(input) + Strip(chunk[..n]), chunk[n..])
  {
    var all, n, word, tail := WordCut(input, chunk, false);
    ParseCut(all, n, word, tail);
  }

  /** The word that goes on, and what is left behind it. */
  lemma WordCut(s: string, t: string, newline: bool) returns (all: string, n: nat, word: string, tail: string)
    requires WordEnd(s, newline) == |s|
    ensures all == s + t && n == WordEnd(all, newline)
    ensures word == Strip(all[..n]) == Strip(s) + Strip(t[..WordEnd(t, newline)])
    ensures tail == all[n..] == t[WordEnd(t, newline)..]
  {
    all, n := s + t, |s| + WordEnd(t, newline);
    word, tail := Strip(all[..n]), all[n..];
    WordGoesOn(s, t, newline);
  }

  lemma ParseCut(input: string, n: nat, word: string, tail: string)
    requires n == WordEnd(input, false) && word == Strip(input[..n]) && tail == input[n..]
    ensures Parse(input) == EndCommand(word, tail)
  {
  }

  lemma ExtendOpenCommand(word: string, chunk: string)
    ensures var n := WordEnd(chunk, false);
      Extend(EndCommand(word, ""), chunk) == EndCommand(word + Strip(chunk[..n]), chunk[n..])
  {
  }

  lemma CommandGoesOn(input: string, chunk: string)
    requires WordEnd(input, false) == |input|
    ensures Parse(input + chunk) == Extend(Parse(input), chunk)
  {
    OpenCommand(input);
    OpenCommandThen(input, chunk);
    ExtendOpenCommand(Strip(input), chunk);
  }

  /** Parsing is incremental: this is what makes the cuts between chunks immaterial. */
  lemma ParseExtend(input: string, chunk: string)
    ensures Parse(input + chunk) == Extend(Parse(input), chunk)
  {
    var i := WordEnd(input, false);
    if i < |input| {
      WordStays(input, chunk, false);
      CommandStays(Strip(input[..i]), input[i..], chunk);
    } else {
      CommandGoesOn(input, chunk);
    }
  }

  function Concat(chunks: seq<string>): string {
    if chunks == [] then "" else Concat(chunks[..|chunks| - 1]) + chunks[|chunks| - 1]
  }
}
