/** What the command reader answers, read off the characters of the input. */
module CommandAnswers {
  import opened CommandSpec

  /** No space in w, and no newline when it is a file name. */
  ghost predicate Unbroken(w: string, newline: bool) {
    ' ' !in w && (newline ==> '\n' !in w)
  }

  /** The input is a command word, a space, a file name, the space or newline that ends it, and the rest.
      NUL bytes count in neither word, and both fit the 8192-byte buffer. */
  ghost predicate IsCommand(input: string, command: string, name: string, stop: char, rest: string) {
    exists c, n :: Cut(input, c, n, stop, rest)
      && Strip(c) == command && |command| <= 8191 && Strip(n) == name && |name| <= 8191
  }

  ghost predicate Cut(input: string, c: string, n: string, stop: char, rest: string) {
    && input == c + (" " + (n + ([stop] + rest)))
    && Unbroken(c, false) && Unbroken(n, true) && (stop == ' ' || stop == '\n')
  }

  /** w is the word at the front of s. */
  ghost predicate Leads(s: string, w: string, newline: bool) {
    && w <= s && Unbroken(w, newline)
    && (|w| < |s| ==> s[|w|] == ' ' || (newline && s[|w|] == '\n'))
  }

  /** c is the command word and n the file name behind the space that ends it. */
  ghost predicate NameLeads(input: string, c: string, n: string) {
    Leads(input, c, false) && |c| < |input| && Leads(input[|c| + 1..], n, true)
  }

  /** The command word, or the file name behind it, does not fit. */
  ghost predicate Overlong(input: string) {
    || (exists c :: Leads(input, c, false) && |Strip(c)| > 8191)
    || (exists c, n :: NameLeads(input, c, n) && |Strip(n)| > 8191)
  }

  /** A name that can be opened: 1 to 4096 characters, no slash, no backslash before a zero. */
  ghost predicate Usable(name: string) {
    && 1 <= |name| <= 4096
    && '/' !in name
    && forall i :: 0 <= i < |name| - 1 ==> !(name[i] == '\\' && name[i + 1] == '0')
  }

  lemma UsableIs(name: string)
    ensures Usable(name) <==> !BadName(name, '\n')
  {
    if '/' in name {
      var i :| 0 <= i < |name| && name[i] == '/';
      assert Refused(name);
    }
    if i :| 0 <= i < |name| - 1 && name[i] == '\\' && name[i + 1] == '0' {
      assert Refused(name);
    }
  }

  lemma LeadsIs(s: string, w: string, newline: bool)
    ensures Leads(s, w, newline) <==> w == s[..WordEnd(s, newline)]
  {
    var n := WordEnd(s, newline);
    forall c | c in s[..n] ensures c != ' ' && (newline ==> c != '\n') {
      var i :| 0 <= i < n && s[..n][i] == c;
      assert !Stops(s[i], newline);
    }
    if Leads(s, w, newline) {
      forall i | 0 <= i < |w| ensures !Stops(s[i], newline) {
        assert s[i] == w[i] && w[i] in w;
      }
      if |w| < |s| { WordEndIs(s, |w|, newline); }
      assert w == s[..|w|];
    }
  }

  lemma CutLeads(input: string, c: string, n: string, stop: char, rest: string)
    requires Cut(input, c, n, stop, rest)
    ensures Leads(input, c, false) && |c| < |input| && input[|c|] == ' '
    ensures input[|c| + 1..] == n + ([stop] + rest)
    ensures Leads(input[|c| + 1..], n, true)
  {
    assert input[|c| + 1..] == n + ([stop] + rest);
  }

  lemma ParseCutInput(input: string, c: string, n: string, stop: char, rest: string)
    requires Cut(input, c, n, stop, rest)
    ensures Parse(input) == if |Strip(c)| > 8191 || |Strip(n)| > 8191 then TooLong
                            else Named(Strip(c), Strip(n), stop, rest)
  {
    CutLeads(input, c, n, stop, rest);
    LeadsIs(input, c, false);
    LeadsIs(input[|c| + 1..], n, true);
    assert input[|c|..][1..] == input[|c| + 1..];
    ParseNameCut(Strip(c), input[|c| + 1..], n, stop, rest);
  }

  lemma ParseNameCut(command: string, tail: string, n: string, stop: char, rest: string)
    requires tail == n + ([stop] + rest) && n == tail[..WordEnd(tail, true)]
    ensures ParseName(command, tail)
         == if |Strip(n)| > 8191 then TooLong else Named(command, Strip(n), stop, rest)
  {
    assert tail[|n|..] == [stop] + rest;
  }

  /** The words of an input that has both. */
  lemma CutAt(input: string) returns (c: string, n: string, stop: char, rest: string)
    requires Parse(input).Named?
    ensures Cut(input, c, n, stop, rest)
  {
    NamedCuts(input);
    var space, tail;
    c, space, tail := SplitAt(input, false);
    n, stop, rest := SplitAt(tail, true);
  }

  lemma NamedCuts(input: string)
    requires Parse(input).Named?
    ensures var i := WordEnd(input, false);
      i < |input| && WordEnd(input[i + 1..], true) < |input[i + 1..]|
  {
    var i := WordEnd(input, false);
    assert i < |input| ==> input[i..][1..] == input[i + 1..];
  }

  lemma SplitAt(s: string, newline: bool) returns (w: string, stop: char, tail: string)
    requires WordEnd(s, newline) < |s|
    ensures s == w + ([stop] + tail) && tail == s[WordEnd(s, newline) + 1..]
    ensures Unbroken(w, newline) && (stop == ' ' || (newline && stop == '\n'))
  {
    var n := WordEnd(s, newline);
    w, stop, tail := s[..n], s[n], s[n + 1..];
    LeadsIs(s, w, newline);
  }

  lemma IsCommandIs(input: string, command: string, name: string, stop: char, rest: string)
    ensures IsCommand(input, command, name, stop, rest) <==> Parse(input) == Named(command, name, stop, rest)
  {
    if IsCommand(input, command, name, stop, rest) {
      var c, n :| Cut(input, c, n, stop, rest)
        && Strip(c) == command && |command| <= 8191 && Strip(n) == name && |name| <= 8191;
      ParseCutInput(input, c, n, stop, rest);
    }
    if Parse(input) == Named(command, name, stop, rest) {
      var c, n, stop', rest' := CutAt(input);
      ParseCutInput(input, c, n, stop', rest');
    }
  }

  lemma LeadsOnce(s: string, w: string, w': string, newline: bool)
    requires Leads(s, w, newline) && Leads(s, w', newline)
    ensures w == w'
  {
    LeadsIs(s, w, newline);
    LeadsIs(s, w', newline);
  }

  /** The command word and, when a space ends it, the name word. */
  lemma FirstWords(input: string) returns (c: string, n: string)
    ensures Leads(input, c, false) && (|c| < |input| ==> NameLeads(input, c, n))
    ensures Parse(input).TooLong? <==> |Strip(c)| > 8191 || (|c| < |input| && |Strip(n)| > 8191)
  {
    c, n := input[..WordEnd(input, false)], "";
    LeadsIs(input, c, false);
    if |c| < |input| {
      var tail := input[|c| + 1..];
      assert input[|c|..][1..] == tail;
      n := tail[..WordEnd(tail, true)];
      LeadsIs(tail, n, true);
    }
  }

  lemma OverlongWords(input: string, c: string, n: string)
    requires Leads(input, c, false) && (|c| < |input| ==> NameLeads(input, c, n))
    ensures Overlong(input) <==> |Strip(c)| > 8191 || (|c| < |input| && |Strip(n)| > 8191)
  {
    forall c' | Leads(input, c', false) ensures c' == c {
      LeadsOnce(input, c, c', false);
    }
    forall c', n' | NameLeads(input, c', n') ensures |c| < |input| && n' == n {
      NamesOnce(input, c, n, c', n');
    }
  }

  lemma NamesOnce(input: string, c: string, n: string, c': string, n': string)
    requires Leads(input, c, false) && (|c| < |input| ==> NameLeads(input, c, n)) && NameLeads(input, c', n')
    ensures |c| < |input| && n' == n
  {
    LeadsOnce(input, c, c', false);
    LeadsOnce(input[|c| + 1..], n, n', true);
  }

  lemma OverlongIs(input: string)
    ensures Overlong(input) <==> Parse(input).TooLong?
  {
    var c, n := FirstWords(input);
    OverlongWords(input, c, n);
  }

  /** A set of a usable name. */
  ghost predicate IsSet(input: string, name: string, body: string) {
    IsCommand(input, "set", name, '\n', body) && Usable(name)
  }

  /** A get of a usable name of a regular file, with nothing behind the newline. */
  ghost predicate IsGet(input: string, name: string, env: Env) {
    IsCommand(input, "get", name, '\n', "") && Usable(name) && name in env.files && env.files[name].RegularFile?
  }

  lemma SetAnswer(input: string, name: string, body: string, env: Env, readFails: bool)
    requires IsSet(input, name, body)
    ensures OneShot(input, env, readFails)
         == if name in env.blocked then Exit(1, OperationFailed, "", None)
            else if readFails then Exit(1, OperationFailed, "", Some((name, body)))
            else Exit(0, NoMessage, "OK\n", Some((name, body)))
  {
    IsCommandIs(input, "set", name, '\n', body);
    UsableIs(name);
  }

  lemma GetAnswer(input: string, name: string, env: Env)
    requires IsGet(input, name, env)
    ensures OneShot(input, env, false) == Exit(0, NoMessage, env.files[name].data, None)
  {
    IsCommandIs(input, "get", name, '\n', "");
    UsableIs(name);
  }

  lemma ServedOverflow(p: Progress, env: Env, readFails: bool)
    ensures Served(p, env, readFails) == Overflow <==> p.TooLong?
  {
  }

  /** A word that does not fit has no defined outcome, and nothing else has none. */
  lemma OverlongAnswer(input: string, env: Env, readFails: bool)
    ensures OneShot(input, env, readFails) == Overflow <==> Overlong(input)
  {
    OverlongIs(input);
    ServedOverflow(Parse(input), env, readFails);
  }

  lemma StopIs(input: string)
    requires Parse(input).Named?
    ensures Parse(input).stop == '\n' || Parse(input).stop == ' '
  {
    var c, n, stop, rest := CutAt(input);
    ParseCutInput(input, c, n, stop, rest);
  }

  lemma ServedRefused(p: Progress, env: Env, readFails: bool)
    requires !p.TooLong?
    requires p.Named? && p.command == "set" ==> BadName(p.name, p.stop)
    requires p.Named? && p.command == "get" && p.rest == "" && !BadName(p.name, p.stop) ==>
      readFails || p.name !in env.files || !env.files[p.name].RegularFile?
    ensures Served(p, env, readFails) == Exit(1, if readFails then OperationFailed else InvalidCommand, "", None)
  {
  }

  /** What a parsed input that is no set of a usable name looks like. */
  lemma NoSet(input: string, p: Progress)
    requires p == Parse(input) && p.Named? && p.command == "set" && !IsSet(input, p.name, p.rest)
    ensures BadName(p.name, p.stop)
  {
    IsCommandIs(input, p.command, p.name, p.stop, p.rest);
    StopIs(input);
    UsableIs(p.name);
  }

  lemma NoGet(input: string, p: Progress, env: Env)
    requires p == Parse(input) && p.Named? && p.command == "get" && p.rest == "" && !BadName(p.name, p.stop)
    requires !IsGet(input, p.name, env)
    ensures p.name !in env.files || !env.files[p.name].RegularFile?
  {
    IsCommandIs(input, p.command, p.name, p.stop, p.rest);
    StopIs(input);
    UsableIs(p.name);
  }

  /** Everything else is refused: an unknown command, no space, no end of the name, a name ended by a
      space, a name that is not usable, bytes behind a get's name, a file missing or not regular. */
  lemma RefusedAnswer(input: string, env: Env, readFails: bool)
    requires !Overlong(input) && (forall name, body :: !IsSet(input, name, body))
    requires readFails || forall name :: !IsGet(input, name, env)
    ensures OneShot(input, env, readFails) == Exit(1, if readFails then OperationFailed else InvalidCommand, "", None)
  {
    var p := Parse(input);
    OverlongIs(input);
    if p.Named? && p.command == "set" { NoSet(input, p); }
    if p.Named? && p.command == "get" && p.rest == "" && !BadName(p.name, p.stop) && !readFails {
      NoGet(input, p, env);
    }
    ServedRefused(p, env, readFails);
  }

  /** Exit status 0, exactly: a set of a usable name that can be opened, or a get of a usable name of a
      regular file, read to the end. */
  lemma SucceedsExactly(input: string, env: Env, readFails: bool)
    ensures var o := OneShot(input, env, readFails);
      o.Exit? && o.code == 0 <==>
        && !readFails
        && ((exists name, body :: IsSet(input, name, body) && name !in env.blocked)
          || exists name :: IsGet(input, name, env))
  {
    if name, body :| IsSet(input, name, body) {
      SetAnswer(input, name, body, env, readFails);
      forall name', body' | IsSet(input, name', body') ensures name' == name {
        IsCommandIs(input, "set", name, '\n', body);
        IsCommandIs(input, "set", name', '\n', body');
      }
      forall name' ensures !IsGet(input, name', env) {
        IsCommandIs(input, "set", name, '\n', body);
        IsCommandIs(input, "get", name', '\n', "");
      }
    } else if !readFails && exists name :: IsGet(input, name, env) {
      var name :| IsGet(input, name, env);
      GetAnswer(input, name, env);
    } else {
      OverlongAnswer(input, env, readFails);
      if !Overlong(input) { RefusedAnswer(input, env, readFails); }
    }
  }
}
