/** The program that reads a command from standard input in chunks of any size. */
module CommandReader {
  import opened CommandSpec

  /** None of the coming write calls fails. */
  ghost predicate Harmless(script: seq<int>) {
    forall i :: 0 <= i < |script| ==> 0 <= script[i]
  }

  lemma SliceOn(buffer: string, from: nat, mid: nat, end: nat, n: nat)
    requires from <= mid && mid + n <= end <= |buffer|
    ensures buffer[from..mid] + buffer[mid..end][..n] == buffer[from..mid + n]
  {
  }

  /** Up to mid only a part of buffer[from..end] stands behind a. */
  lemma PartAfter(a: string, buffer: string, from: nat, mid: nat, end: nat)
    requires from <= mid <= end <= |buffer|
    ensures a <= a + buffer[from..mid] <= a + buffer[from..end]
    ensures mid == from ==> a + buffer[from..mid] == a
  {
    assert buffer[from..end] == buffer[from..mid] + buffer[mid..end];
  }

  /** A file descriptor open for writing. script lists what the coming write calls do: a negative
      number fails, another is the most bytes the call takes; past its end every call takes all. */
  class Device {
    var data: string
    var script: seq<int>
    var failed: bool

    constructor (script: seq<int>)
      ensures data == "" && this.script == script && !failed
    {
      data, this.script, failed := "", script, false;
    }

    /** write: the number of bytes taken, or -1. */
    method Write(bytes: string) returns (n: int)
      modifies this
      ensures |script| <= |old(script)|
      ensures n < 0 ==> failed && data == old(data)
      ensures n >= 0 ==> n <= |bytes| && failed == old(failed) && data == old(data) + bytes[..n]
      ensures n < |bytes| ==> |script| < |old(script)|
      ensures Harmless(old(script)) ==> Harmless(script) && failed == old(failed)
    {
      if script == [] {
        data := data + bytes;
        return |bytes|;
      }
      n := script[0];
      script := script[1..];
      if n < 0 {
        failed := true;
        return -1;
      }
      if n > |bytes| {
        n := |bytes|;
      }
      data := data + bytes[..n];
    }

    /** writeCommand: buffer[from..end] goes out however short the writes are, or one of them fails
        when a part of it has. */
    method WriteCommand(buffer: string, from: nat, end: nat) returns (error: bool)
      requires from <= end <= |buffer| && !failed
      modifies this
      ensures error == failed
      ensures old(data) <= data <= old(data) + buffer[from..end]
      ensures Harmless(old(script)) ==> Harmless(script) && !error
      ensures !error ==> data == old(data) + buffer[from..end]
    {
      var written := from;
      var n := Write(buffer[written..end]);
      if n < 0 {
        PartAfter(old(data), buffer, from, from, end);
        return true;
      }
      SliceOn(buffer, from, from, end, n);
      written := written + n;
      while written < end
        invariant from <= written <= end && !failed
        invariant data == old(data) + buffer[from..written]
        invariant Harmless(old(script)) ==> Harmless(script)
        decreases end - written, |script|
      {
        n := Write(buffer[written..end]);
        if n < 0 {
          PartAfter(old(data), buffer, from, written, end);
          return true;
        }
        SliceOn(buffer, from, written, end, n);
        written := written + n;
      }
      PartAfter(old(data), buffer, from, end, end);
      return false;
    }
  }

  method NullTerminatorCheck(f: string) returns (refused: bool)
    ensures refused == Refused(f)
  {
    var i := 0;
    while i < |f|
      invariant 0 <= i <= |f|
      invariant forall j :: 0 <= j < i ==>
        f[j] != '/' && !(j + 1 < |f| && f[j] == '\\' && f[j + 1] == '0')
    {
      if i + 1 < |f| && f[i] == '\\' && f[i + 1] == '0' {
        return true;
      }
      if f[i] == '/' {
        return true;
      }
      i := i + 1;
    }
    return false;
  }

  /** The loops that collect the command and the file name: tmp grows by what part of the chunk
      belongs to the word. used counts the bytes consumed, the one that ends the word included. */
  method CollectWord(tmp: string, chunk: string, newline: bool)
    returns (word: string, used: nat, ended: bool, overflow: bool)
    requires |tmp| <= WORD_MAX
    ensures overflow <==> |tmp| + |Strip(chunk[..WordEnd(chunk, newline)])| > WORD_MAX
    ensures !overflow ==> word == tmp + Strip(chunk[..WordEnd(chunk, newline)])
    ensures !overflow ==> ended == (WordEnd(chunk, newline) < |chunk|)
    ensures !overflow ==> used == if ended then WordEnd(chunk, newline) + 1 else |chunk|
  {
    word, used, ended, overflow := tmp, 0, false, false;
    ghost var end := WordEnd(chunk, newline);
    while used < |chunk|
      invariant used <= end
      invariant word == tmp + Strip(chunk[..used]) && |word| <= WORD_MAX
    {
      if Stops(chunk[used], newline) {
        assert used == end;
        return word, used + 1, true, false;
      }
      assert used < end;
      StripNext(chunk, used);
      if chunk[used] != '\0' {
        if |word| == WORD_MAX {
          StripGrows(chunk, used + 1, end);
          return word, used, false, true;
        }
        word := word + [chunk[used]];
      }
      used := used + 1;
    }
    assert used == end;
  }

  const UNSET := -2
  const REJECTED := -3
  const OPENED := 3

  /** The variables of main that outlive one turn of its reading loop. */
  datatype Locals = Locals(tmp: string, command: Option<string>, filename: Option<string>, infile: int)

  function Judge(name: string, stop: char): int {
    if BadName(name, stop) then REJECTED else UNSET
  }

  /** The variables after the word scanning of a turn, before anything is opened. */
  ghost predicate Scanned(l: Locals, p: Progress) {
    match p
    case InCommand(w) => l == Locals(w, None, None, UNSET) && |w| <= WORD_MAX
    case InName(c, w) => l == Locals(w, Some(c), None, UNSET) && |w| <= WORD_MAX
    case Named(c, n, stop, rest) => l == Locals("", Some(c), Some(n), Judge(n, stop))
    case TooLong => false
  }

  ghost predicate ToBeWritten(p: Progress) {
    p.Named? && p.command == "set" && !BadName(p.name, p.stop)
  }

  /** The variables, and what has been written, at the head of the loop. */
  ghost predicate Matches(l: Locals, data: string, p: Progress, env: Env) {
    if ToBeWritten(p) then
      l == Locals("", Some("set"), Some(p.name), OPENED) && data == p.rest && p.name !in env.blocked
    else if p.Named? && p.command == "get" && p.rest != "" then
      l == Locals("", Some("get"), Some(p.name), REJECTED) && data == ""
    else
      Scanned(l, p) && data == ""
  }

  /** The name found, main decides whether it can be used. */
  method CheckName(name: string, stop: char) returns (infile: int)
    requires Stops(stop, true)
    ensures infile == Judge(name, stop)
  {
    infile := if stop == '\n' then UNSET else REJECTED;
    var refused := NullTerminatorCheck(name);
    if |name| == 0 || |name| > PATH_MAX || refused {
      infile := REJECTED;
    }
  }

  /** The file name's share of a chunk, from position used on. */
  method CollectName(l: Locals, buffer: string, from: nat) returns (l': Locals, used: nat, overflow: bool)
    requires from <= |buffer| && l.command.Some? && l.filename.None? && l.infile == UNSET && |l.tmp| <= WORD_MAX
    ensures overflow <==> ExtendName(l.command.value, l.tmp, buffer[from..]).TooLong?
    ensures !overflow ==> Scanned(l', ExtendName(l.command.value, l.tmp, buffer[from..]))
    ensures from <= used <= |buffer|
    ensures var p := ExtendName(l.command.value, l.tmp, buffer[from..]); p.Named? ==> p.rest == buffer[used..]
  {
    var rest := buffer[from..];
    var word, n, ended, tooLong := CollectWord(l.tmp, rest, true);
    if tooLong {
      return l, |buffer|, true;
    }
    used, overflow := from + n, false;
    if ended {
      var infile := CheckName(word, rest[n - 1]);
      l' := Locals("", l.command, Some(word), infile);
      assert rest[n..] == buffer[used..];
    } else {
      l' := l.(tmp := word);
    }
  }

  /** The words' share of a chunk: the command's first, then the name's. */
  method Collect(l: Locals, buffer: string, ghost p: Progress) returns (l': Locals, used: nat, overflow: bool)
    requires (p.InCommand? || p.InName?) && Scanned(l, p)
    ensures overflow <==> Extend(p, buffer).TooLong?
    ensures !overflow ==> Scanned(l', Extend(p, buffer)) && used <= |buffer|
    ensures !overflow && Extend(p, buffer).Named? ==> Extend(p, buffer).rest == buffer[used..]
  {
    l', used, overflow := l, 0, false;
    if l'.command.None? {
      var word, n, ended, tooLong := CollectWord(l'.tmp, buffer, false);
      if tooLong {
        return l', 0, true;
      }
      used := n;
      if ended { FreshName(word, buffer[n..]); }
      l' := if ended then Locals("", Some(word), None, UNSET) else l'.(tmp := word);
    }
    if l'.command.Some? {
      assert buffer[0..] == buffer;
      l', used, overflow := CollectName(l', buffer, used);
    }
  }

  /** The variables between the scanning and the opening: name and command known, and what is left of
      the chunk behind position used still to be dealt with. */
  ghost predicate Pending(l: Locals, used: nat, buffer: string, p: Progress) {
    && used <= |buffer|
    && if !p.Named? then Scanned(l, p)
       else
         && l == Locals("", Some(p.command), Some(p.name), l.infile)
         && (ToBeWritten(p) ==> l.infile == UNSET && p.rest == buffer[used..])
         && (p.command == "get" ==>
              || (l.infile == Judge(p.name, p.stop) && (p.rest != "" <==> used < |buffer|))
              || (l.infile == REJECTED && p.rest != ""))
         && (!ToBeWritten(p) && p.command != "get" ==> l.infile == Judge(p.name, p.stop))
  }

  /** The end of a turn: a set opens its file and writes the rest of the chunk, a get refuses it. */
  method Settle(l: Locals, used: nat, buffer: string, env: Env, dev: Device, ghost p: Progress)
    returns (l': Locals, stop: Option<Outcome>)
    requires Pending(l, used, buffer, p) && !dev.failed && dev.data == ""
    modifies dev
    ensures stop.None? ==> !dev.failed && Matches(l', dev.data, p, env)
    ensures Harmless(old(dev.script)) ==> Harmless(dev.script) && !dev.failed
    ensures stop.Some? ==> if dev.failed then PartWritten(p, env, stop.value)
      else ToBeWritten(p) && p.name in env.blocked && stop.value == Failed(None)
  {
    l', stop := l, None;
    if l.filename.Some? && l.command == Some("set") {
      if l.infile != REJECTED {
        if l.filename.value in env.blocked {
          return l, Some(Failed(None));
        }
        l' := l.(infile := OPENED);
        var error := dev.WriteCommand(buffer, used, |buffer|);
        if error {
          stop := Some(Failed(Some((l.filename.value, dev.data))));
        }
      }
    } else if l.filename.Some? && l.infile != REJECTED && l.command == Some("get") {
      if used < |buffer| {
        l' := l.(infile := REJECTED);
      }
    }
  }

  /** The outcome after a failed write, against the one owed: only a part of the body is in the
      file, or of the file's content on standard output. */
  ghost predicate Broken(o: Outcome, owed: Outcome) {
    && o.Exit? && o.code == 1 && o.stderr == OperationFailed
    && owed.Exit? && o.stdout <= owed.stdout
    && match o.target
       case None => owed.target.None?
       case Some(part) =>
         owed.target.Some? && part.0 == owed.target.value.0 && part.1 <= owed.target.value.1
  }

  /** A write of the body failed; whatever follows, the file holds the part written before. */
  ghost predicate PartWritten(p: Progress, env: Env, o: Outcome) {
    && ToBeWritten(p) && p.name !in env.blocked
    && o.Exit? && o.target.Some? && o == Failed(o.target)
    && o.target.value.0 == p.name && o.target.value.1 <= p.rest
  }

  lemma {:induction false} PartWrittenRest(chunks: seq<string>, i: nat, env: Env, o: Outcome, readFails: bool)
    requires i <= |chunks| && PartWritten(Parse(Concat(chunks[..i])), env, o)
    ensures Broken(o, OneShot(Concat(chunks), env, readFails))
    decreases |chunks| - i
  {
    if i == |chunks| {
      assert chunks[..i] == chunks;
    } else {
      ConcatNext(chunks, i);
      PartWrittenStays(Parse(Concat(chunks[..i])), env, o, chunks[i]);
      PartWrittenRest(chunks, i + 1, env, o, readFails);
    }
  }

  lemma PartWrittenStays(p: Progress, env: Env, o: Outcome, chunk: string)
    requires PartWritten(p, env, o)
    ensures PartWritten(Extend(p, chunk), env, o)
  {
  }

  /** One turn of the reading loop on a chunk that is not empty. It stops the program when a word does
      not fit, the file cannot be opened, or a write fails. */
  method Feed(l: Locals, buffer: string, env: Env, dev: Device, ghost p: Progress)
    returns (l': Locals, stop: Option<Outcome>)
    requires buffer != "" && Matches(l, dev.data, p, env) && !dev.failed
    modifies dev
    ensures stop.None? ==> !dev.failed && Matches(l', dev.data, Extend(p, buffer), env)
    ensures Harmless(old(dev.script)) ==> Harmless(dev.script) && !dev.failed
    ensures stop.Some? ==>
      var p' := Extend(p, buffer);
      if dev.failed then PartWritten(p', env, stop.value) else Settled(p', env, stop.value)
  {
    l', stop := l, None;
    if l.infile > 0 && l.command.Some? && l.filename.Some? {
      if l.command.value == "set" {
        assert buffer[0..|buffer|] == buffer;
        var error := dev.WriteCommand(buffer, 0, |buffer|);
        if error {
          stop := Some(Failed(Some((l.filename.value, dev.data))));
        }
      }
      return;
    }
    var used, overflow := 0, false;
    if l.command.None? || l.filename.None? {
      l', used, overflow := Collect(l, buffer, p);
      if overflow {
        return l, Some(Overflow);
      }
    }
    l', stop := Settle(l', used, buffer, env, dev, Extend(p, buffer));
  }

  /** Whatever follows, the outcome is o. */
  ghost predicate Settled(p: Progress, env: Env, o: Outcome) {
    if p.TooLong? then o == Overflow else ToBeWritten(p) && p.name in env.blocked && o == Failed(None)
  }

  lemma SettledStays(p: Progress, env: Env, o: Outcome, chunk: string, readFails: bool)
    requires Settled(p, env, o)
    ensures Settled(Extend(p, chunk), env, o) && Served(p, env, readFails) == o
  {
  }

  lemma ConcatNext(chunks: seq<string>, i: nat)
    requires i < |chunks|
    ensures Parse(Concat(chunks[..i + 1])) == Extend(Parse(Concat(chunks[..i])), chunks[i])
  {
    assert chunks[..i + 1][..i] == chunks[..i];
    ParseExtend(Concat(chunks[..i]), chunks[i]);
  }

  lemma {:induction false} SettledRest(chunks: seq<string>, i: nat, env: Env, o: Outcome, readFails: bool)
    requires i <= |chunks| && Settled(Parse(Concat(chunks[..i])), env, o)
    ensures OneShot(Concat(chunks), env, readFails) == o
    decreases |chunks| - i
  {
    if i == |chunks| {
      assert chunks[..i] == chunks;
      SettledStays(Parse(Concat(chunks)), env, o, "", readFails);
    } else {
      ConcatNext(chunks, i);
      SettledStays(Parse(Concat(chunks[..i])), env, o, chunks[i], readFails);
      SettledRest(chunks, i + 1, env, o, readFails);
    }
  }

  const BUFFER_SIZE := 8192

  /** The copying loop of get: the file goes to standard output a buffer at a time. */
  method CopyOut(content: string, out: Device) returns (error: bool)
    requires !out.failed && out.data == ""
    modifies out
    ensures error == out.failed
    ensures out.data <= content && (!error ==> out.data == content)
    ensures Harmless(old(out.script)) ==> !error
  {
    var pos := 0;
    while pos < |content|
      invariant 0 <= pos <= |content| && !out.failed && out.data == content[..pos]
      invariant Harmless(old(out.script)) ==> Harmless(out.script)
    {
      var n := if |content| - pos < BUFFER_SIZE then |content| - pos else BUFFER_SIZE;
      var buffer := content[pos..pos + n];
      assert buffer[0..|buffer|] == buffer;
      assert content[..pos + n] == content[..pos] + buffer;
      error := out.WriteCommand(buffer, 0, |buffer|);
      if error {
        return true;
      }
      pos := pos + n;
    }
    return false;
  }

  /** main behind the reading loop. */
  method Answer(l: Locals, env: Env, dev: Device, out: Device, ghost p: Progress) returns (o: Outcome)
    requires Matches(l, dev.data, p, env) && dev != out && !out.failed && out.data == ""
    modifies out
    ensures if out.failed then Broken(o, Served(p, env, false)) else o == Served(p, env, false)
    ensures Harmless(old(out.script)) ==> !out.failed
  {
    if l.infile != REJECTED && l.command == Some("get") {
      if l.filename.None? || l.filename.value !in env.files || env.files[l.filename.value].OtherFile? {
        return Invalid(None);
      }
      var error := CopyOut(env.files[l.filename.value].data, out);
      if error {
        return Exit(1, OperationFailed, out.data, None);
      }
      return Exit(0, NoMessage, out.data, None);
    } else if l.infile > 0 && l.command == Some("set") {
      return Exit(0, NoMessage, "OK\n", Some((l.filename.value, dev.data)));
    }
    return Invalid(None);
  }

  /** main: the chunks are what successive reads deliver before the end of file, or before a
      read error. Unless a write fails, the outcome (exit code, messages, standard output, the file
      written and its bytes) is that of parsing the concatenated input at once: however the input is
      cut, and however short the writes are. If a write fails, the file or the standard output is
      left with a part of what it was owed. */
  method Program(chunks: seq<string>, readFails: bool, env: Env, fileScript: seq<int>, outScript: seq<int>)
    returns (o: Outcome, writeFailed: bool)
    requires forall i :: 0 <= i < |chunks| ==> chunks[i] != ""
    ensures var owed := OneShot(Concat(chunks), env, readFails);
      if writeFailed then Broken(o, owed) else o == owed
    ensures Harmless(fileScript) && Harmless(outScript) ==> !writeFailed
  {
    var dev := new Device(fileScript);
    var out := new Device(outScript);
    var l, stop := ReadAll(chunks, env, dev, readFails);
    if stop.Some? {
      return stop.value, dev.failed;
    }
    if readFails {
      var written := if l.infile > 0 then Some((l.filename.value, dev.data)) else None;
      return Failed(written), false;
    }
    o := Answer(l, env, dev, out, Parse(Concat(chunks)));
    writeFailed := out.failed;
  }

  /** The reading loop. */
  method ReadAll(chunks: seq<string>, env: Env, dev: Device, ghost readFails: bool)
    returns (l: Locals, stop: Option<Outcome>)
    requires (forall i :: 0 <= i < |chunks| ==> chunks[i] != "") && !dev.failed && dev.data == ""
    modifies dev
    ensures Harmless(old(dev.script)) ==> !dev.failed
    ensures stop.None? ==> !dev.failed && Matches(l, dev.data, Parse(Concat(chunks)), env)
    ensures stop.Some? ==>
      var owed := OneShot(Concat(chunks), env, readFails);
      if dev.failed then Broken(stop.value, owed) else stop.value == owed
  {
    l, stop := Locals("", None, None, UNSET), None;
    var i := 0;
    while i < |chunks|
      invariant 0 <= i <= |chunks| && !dev.failed && stop.None?
      invariant Matches(l, dev.data, Parse(Concat(chunks[..i])), env)
      invariant Harmless(old(dev.script)) ==> Harmless(dev.script)
    {
      ConcatNext(chunks, i);
      l, stop := Feed(l, chunks[i], env, dev, Parse(Concat(chunks[..i])));
      i := i + 1;
      if stop.Some? {
        if dev.failed {
          PartWrittenRest(chunks, i, env, stop.value, readFails);
        } else {
          SettledRest(chunks, i, env, stop.value, readFails);
        }
        return;
      }
    }
    assert chunks[..i] == chunks;
  }
}
