/** executionLineWriter: turns the chunks a process writes into log records, one per line. */
module LineWriter {
  import opened Text

  // ----- Lines of a text -----

  /** The segments between newlines; the last one is what follows the last newline. */
  function Split(s: string): (segments: seq<string>)
    ensures segments != []
  {
    if s == "" then [""]
    else if s[0] == '\n' then [""] + Split(s[1..])
    else
      var rest := Split(s[1..]);
      [[s[0]] + rest[0]] + rest[1..]
  }

  function Join(segments: seq<string>): string
    requires segments != []
  {
    if |segments| == 1 then segments[0] else segments[0] + "\n" + Join(segments[1..])
  }

  predicate NoNewlines(segments: seq<string>) {
    forall i :: 0 <= i < |segments| ==> '\n' !in segments[i]
  }

  /** Splitting loses nothing, and no segment holds a newline. */
  lemma {:induction false} SplitJoins(s: string)
    ensures Join(Split(s)) == s && NoNewlines(Split(s))
  {
    if s != "" {
      SplitJoins(s[1..]);
      var rest := Split(s[1..]);
      if s[0] == '\n' {
        var whole := [""] + rest;
        assert whole[1..] == rest;
      } else {
        var whole := [[s[0]] + rest[0]] + rest[1..];
        assert |rest| > 1 ==> whole[1..] == rest[1..];
        assert s == [s[0]] + s[1..];
      }
    }
  }

  lemma {:induction false} SplitPlain(s: string)
    requires '\n' !in s
    ensures Split(s) == [s]
  {
    if s != "" {
      SplitPlain(s[1..]);
      assert s == [s[0]] + s[1..];
    }
  }

  /** Splitting before and after a newline. */
  lemma {:induction false} SplitAtNewline(head: string, tail: string)
    requires '\n' !in head
    ensures Split(head + "\n" + tail) == [head] + Split(tail)
  {
    var s := head + "\n" + tail;
    if head == "" {
      assert s[1..] == tail;
    } else {
      assert s[1..] == head[1..] + "\n" + tail;
      SplitAtNewline(head[1..], tail);
      assert head == [head[0]] + head[1..];
    }
  }

  /** Splitting is the only way to write a text as newline-free segments. */
  lemma {:induction false} SplitUnique(segments: seq<string>)
    requires segments != [] && NoNewlines(segments)
    ensures Split(Join(segments)) == segments
  {
    if |segments| == 1 {
      SplitPlain(segments[0]);
    } else {
      SplitUnique(segments[1..]);
      SplitAtNewline(segments[0], Join(segments[1..]));
    }
  }

  // ----- Records -----

  /** strings.TrimRight. */
  function TrimRight(s: string, cutset: string): string {
    if s != "" && s[|s| - 1] in cutset then TrimRight(s[..|s| - 1], cutset) else s
  }

  /** The record of one line: trailing carriage returns cut, nothing for a blank line. */
  function Record(line: string): seq<string> {
    var message := TrimRight(line, "\r");
    if Blank(message) then [] else [message]
  }

  function Records(lines: seq<string>): seq<string> {
    if lines == [] then [] else Record(lines[0]) + Records(lines[1..])
  }

  lemma RecordsStep(lines: seq<string>)
    requires lines != []
    ensures Records(lines) == Record(lines[0]) + Records(lines[1..])
  {
    hide Record;
  }

  lemma {:induction false} RecordsConcat(a: seq<string>, b: seq<string>)
    ensures Records(a + b) == Records(a) + Records(b)
  {
    NoRecords();
    hide Record, Records;
    if a == [] {
      assert a + b == b;
    } else {
      RecordsConcat(a[1..], b);
      assert (a + b)[1..] == a[1..] + b;
      RecordsStep(a);
      RecordsStep(a + b);
    }
  }

  /** A record never ends in a carriage return, is never blank and never holds a newline. */
  lemma RecordShape(line: string)
    requires '\n' !in line
    ensures |Record(line)| <= 1
    ensures Record(line) != [] ==>
              var m := Record(line)[0];
              !Blank(m) && '\n' !in m && (m == "" || m[|m| - 1] != '\r') && m <= line
  {
    hide Blank;
    TrimRightShape(line, "\r");
  }

  lemma TrimRightShape(s: string, cutset: string)
    ensures var t := TrimRight(s, cutset);
            t <= s && (t == "" || t[|t| - 1] !in cutset) && forall i :: |t| <= i < |s| ==> s[i] in cutset
  {
    if s != "" && s[|s| - 1] in cutset { TrimRightShape(s[..|s| - 1], cutset); }
  }

  lemma {:induction false} TrimRightWider(s: string)
    requires '\n' !in s
    ensures TrimRight(s, "\r\n") == TrimRight(s, "\r")
  {
    if s != "" && s[|s| - 1] == '\r' { TrimRightWider(s[..|s| - 1]); }
  }

  // ----- Writing in chunks -----

  datatype State = State(buffer: string, emitted: seq<string>)

  /** Complete lines are emitted, the rest waits in the buffer. */
  function Written(w: State, chunk: string): State {
    var segments := Split(w.buffer + chunk);
    State(segments[|segments| - 1], w.emitted + Records(segments[..|segments| - 1]))
  }

  function Flushed(w: State): State {
    State("", w.emitted + Record(w.buffer))
  }

  function WrittenAll(w: State, chunks: seq<string>): State {
    if chunks == [] then w else Written(WrittenAll(w, chunks[..|chunks| - 1]), chunks[|chunks| - 1])
  }

  function Flatten(chunks: seq<string>): string {
    if chunks == [] then "" else Flatten(chunks[..|chunks| - 1]) + chunks[|chunks| - 1]
  }

  /** The segments, each followed by its newline. */
  ghost function Lead(segments: seq<string>): string {
    if segments == [] then "" else segments[0] + "\n" + Lead(segments[1..])
  }

  lemma {:induction false} JoinLead(init: seq<string>, tail: seq<string>)
    requires tail != []
    ensures Join(init + tail) == Lead(init) + Join(tail)
  {
    if init == [] {
      assert init + tail == tail;
    } else {
      JoinLead(init[1..], tail);
      assert (init + tail)[1..] == init[1..] + tail;
    }
  }

  /** Appending text splits only the last segment further. */
  lemma SplitAppend(s: string, t: string)
    ensures var a := Split(s);
            Split(s + t) == a[..|a| - 1] + Split(a[|a| - 1] + t)
  {
    hide Split, Join;
    var a := Split(s);
    var init, last := a[..|a| - 1], a[|a| - 1];
    var b := Split(last + t);
    SplitJoins(s);
    SplitJoins(last + t);
    assert a == init + [last];
    JoinLead(init, [last]);
    JoinLead(init, b);
    assert Join([last]) == last by { JoinOne(last); }
    assert Join(init + b) == s + t;
    SplitUnique(init + b);
  }

  lemma JoinOne(s: string)
    ensures Join([s]) == s
  {}

  /** However the text arrives, the buffer holds what follows its last newline and the records are those of
      the lines before. */
  lemma {:induction false} ChunksDoNotMatter(emitted: seq<string>, chunks: seq<string>)
    ensures WrittenAll(State("", emitted), chunks) == Written(State("", emitted), Flatten(chunks))
  {
    hide Records, Split;
    if chunks == [] {
      var none: string := "";
      assert none + Flatten(chunks) == none;
      SplitPlain(none);
      assert Split(none)[..0] == [];
      assert emitted + Records([]) == emitted by { NoRecords(); }
    } else {
      var n := |chunks| - 1;
      ChunksDoNotMatter(emitted, chunks[..n]);
      var text, chunk := Flatten(chunks[..n]), chunks[n];
      SplitAppend(text, chunk);
      var a := Split(text);
      var b := Split(a[|a| - 1] + chunk);
      assert "" + text == text && "" + (text + chunk) == text + chunk;
      var whole := a[..|a| - 1] + b;
      assert whole[..|whole| - 1] == a[..|a| - 1] + b[..|b| - 1];
      RecordsConcat(a[..|a| - 1], b[..|b| - 1]);
    }
  }

  lemma NoRecords()
    ensures Records([]) == []
  {}

  /** Any chunking of a text, followed by a flush, emits exactly the records of the text's lines. */
  lemma ChunkedThenFlushed(emitted: seq<string>, chunks: seq<string>)
    ensures Flushed(WrittenAll(State("", emitted), chunks)) == State("", emitted + Records(Split(Flatten(chunks))))
  {
    hide Record;
    ChunksDoNotMatter(emitted, chunks);
    var text := Flatten(chunks);
    assert "" + text == text;
    var segments := Split(text);
    var n := |segments| - 1;
    assert segments == segments[..n] + [segments[n]];
    RecordsConcat(segments[..n], [segments[n]]);
    assert [segments[n]][1..] == [];
    assert Records([segments[n]]) == Record(segments[n]) + [] == Record(segments[n]);
  }

  // ----- The writer -----

  class LineBuffer {
    var buffer: string
    var emitted: seq<string>

    /** Between calls the buffer never holds a newline. */
    ghost predicate Valid()
      reads this
    {
      '\n' !in buffer
    }

    function Value(): State
      reads this
    {
      State(buffer, emitted)
    }

    constructor ()
      ensures Valid() && Value() == State("", [])
    {
      buffer, emitted := "", [];
    }

    method Write(p: string) returns (n: nat)
      requires Valid()
      modifies this
      ensures Valid() && n == |p| && Value() == Written(old(Value()), p)
    {
      hide Records, Record;
      if |p| == 0 {
        assert buffer + p == buffer;
        SplitPlain(buffer);
        assert emitted + Records([]) == emitted by { NoRecords(); }
        return 0;
      }
      buffer := buffer + p;
      ghost var text := buffer;
      FlushCompleteLines();
      assert "" + text == text;
      SplitJoins(text);
      return |p|;
    }

    /** The position of the first newline. */
    method IndexOfNewline() returns (index: int)
      ensures -1 <= index < |buffer|
      ensures index == -1 ==> '\n' !in buffer
      ensures index >= 0 ==> buffer[index] == '\n' && '\n' !in buffer[..index]
    {
      for i := 0 to |buffer|
        invariant '\n' !in buffer[..i]
      {
        if buffer[i] == '\n' {
          return i;
        }
      }
      return -1;
    }

    method FlushCompleteLines()
      modifies this
      ensures Value() == Written(State("", old(emitted)), old(buffer))
    {
      hide Records, Record, Split, Blank, TrimRight;
      ghost var text, before := buffer, emitted;
      ghost var done: seq<string> := [];
      assert emitted + Records([]) == emitted by { NoRecords(); }
      while true
        invariant Split(text) == done + Split(buffer) && emitted == before + Records(done)
        decreases |buffer|
      {
        var index := IndexOfNewline();
        if index < 0 {
          break;
        }
        var line := buffer[..index];
        assert buffer == line + "\n" + buffer[index + 1..];
        SplitAtNewline(line, buffer[index + 1..]);
        buffer := buffer[index + 1..];
        Emit(TrimRight(line, "\r"));
        OneRecord(line);
        RecordsConcat(done, [line]);
        done := done + [line];
      }
      SplitPlain(buffer);
      assert "" + text == text;
      assert (done + [buffer])[..|done|] == done;
    }

    method Flush()
      requires Valid()
      modifies this
      ensures Valid() && Value() == Flushed(old(Value()))
    {
      if |buffer| == 0 {
        assert Record("") == [] by { assert TrimRight("", "\r") == ""; }
        return;
      }
      TrimRightWider(buffer);
      Emit(TrimRight(buffer, "\r\n"));
      buffer := "";
    }

    method Emit(line: string)
      modifies this`emitted
      ensures emitted == old(emitted) + if Blank(line) then [] else [line]
    {
      if Blank(line) {
        return;
      }
      emitted := emitted + [line];
    }
  }

  lemma OneRecord(line: string)
    ensures Records([line]) == if Blank(TrimRight(line, "\r")) then [] else [TrimRight(line, "\r")]
  {
    assert [line][1..] == [];
    assert Records([line]) == Record(line) + [];
  }
}
