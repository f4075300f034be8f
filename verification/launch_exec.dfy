/** The log scraping done around a launched binary: each line the binary
    writes is turned into a (level, message) pair, and the text that follows
    the last complete line is handed back to the caller. */
module LaunchExec {

  /** Python's logging levels as used here. */
  const Debug := 10
  const Info := 20
  const Warning := 30
  const Error := 40

  datatype LogLine = LogLine(level: int, msg: string)

  /** `pat` occurs in `s` at index `k`. */
  predicate OccursAt(s: string, pat: string, k: int) {
    0 <= k && k + |pat| <= |s| && s[k..k + |pat|] == pat
  }

  /** Python's `s.find(pat)`: the first index where `pat` occurs, or -1. */
  function Find(s: string, pat: string): (r: int)
    requires |pat| > 0
    ensures r >= -1
    ensures r == -1 <==> forall k :: !OccursAt(s, pat, k)
    ensures r >= 0 ==> OccursAt(s, pat, r)
    ensures r >= 0 ==> forall k :: 0 <= k < r ==> !OccursAt(s, pat, k)
    decreases |s|
  {
    if |s| < |pat| then -1
    else if pat <= s then
      assert OccursAt(s, pat, 0);
      0
    else
      var r := Find(s[1..], pat);
      assert forall k :: OccursAt(s, pat, k) <==> (k == 0 && pat <= s) || (k >= 1 && OccursAt(s[1..], pat, k - 1)) by {
        forall k ensures OccursAt(s, pat, k) <==> (k == 0 && pat <= s) || (k >= 1 && OccursAt(s[1..], pat, k - 1)) {
          if k >= 1 && k + |pat| <= |s| {
            SliceShift(s, k, |pat|);
          }
        }
      }
      if r == -1 then -1
      else
        assert OccursAt(s, pat, r + 1);
        r + 1
  }

  lemma SliceShift(s: string, k: int, n: nat)
    requires 1 <= k && k + n <= |s|
    ensures s[k..k + n] == s[1..][k - 1..k - 1 + n]
  {
  }

  const Dash := " - "

  /** The level a line is logged at, from its leading word. */
  function Level(line: string): (l: int)
    ensures l in {Debug, Info, Warning, Error}
    ensures l == Debug <==> "DEBUG" <= line || "TRACE" <= line || "NOTICE" <= line || line == ""
    ensures l == Info <==> !("DEBUG" <= line || "TRACE" <= line || "NOTICE" <= line || line == "") && "INFO" <= line
    ensures l == Warning <==> !("DEBUG" <= line || "TRACE" <= line || "NOTICE" <= line || line == "" || "INFO" <= line) && "WARN" <= line
  {
    if "DEBUG" <= line || "TRACE" <= line || "NOTICE" <= line || line == "" then Debug
    else if "INFO" <= line then Info
    else if "WARN" <= line then Warning
    else Error
  }

  /** The message of a line: what follows a " - " that starts within the
      first ten characters (after at least one), or the whole line. */
  function Message(line: string): (m: string)
    ensures m != line <==> 0 < Find(line, Dash) < 10
    ensures m != line ==> |line| - |m| - 3 == Find(line, Dash)
  {
    var pos := Find(line, Dash);
    if 0 < pos < 10 then line[pos + 3..] else line
  }

  /** The message is always a tail of the line. */
  lemma MessageIsTail(line: string)
    ensures |Message(line)| <= |line|
    ensures Message(line) == line[|line| - |Message(line)|..]
  {
  }

  function MakeLogLine(line: string): LogLine {
    LogLine(Level(line), Message(line))
  }

  /** Python's `s.partition('\n')`: the text before the first newline,
      whether one was found, and the text after it. */
  function Partition(s: string): (r: (string, bool, string))
    ensures !r.1 <==> '\n' !in s
    ensures !r.1 ==> r.0 == s && r.2 == ""
    ensures r.1 ==> s == r.0 + "\n" + r.2 && '\n' !in r.0
    decreases |s|
  {
    if |s| == 0 then (s, false, "")
    else if s[0] == '\n' then
      assert s == "" + "\n" + s[1..];
      ("", true, s[1..])
    else
      var (a, found, b) := Partition(s[1..]);
      assert s == [s[0]] + s[1..];
      if found then
        assert s == ([s[0]] + a) + "\n" + b;
        ([s[0]] + a, true, b)
      else (s, false, "")
  }

  /** A line as read: non-empty and without its newline. */
  predicate IsLine(l: string) {
    l != "" && '\n' !in l
  }

  predicate AllLines(ls: seq<string>) {
    forall i :: 0 <= i < |ls| ==> IsLine(ls[i])
  }

  /** The lines written back with their terminating newlines. */
  function Terminated(ls: seq<string>): string {
    if |ls| == 0 then "" else ls[0] + "\n" + Terminated(ls[1..])
  }

  /** The outcome of reading a buffer: the complete lines, the text left
      over, and whether the reading stopped at an empty line. */
  datatype Reading = Reading(lines: seq<string>, rest: string, stopped: bool)

  /** What `parse_log` reads out of `s`, stated line by line: the complete
      non-empty lines up to the first empty one, and the rest. The rest is
      either the unterminated tail (no newline in it), or whatever follows
      an empty line, which ends the reading. */
  function Read(s: string): (r: Reading)
    ensures AllLines(r.lines)
    ensures !r.stopped ==> '\n' !in r.rest && s == Terminated(r.lines) + r.rest
    ensures r.stopped ==> s == Terminated(r.lines) + "\n" + r.rest
    decreases |s|
  {
    var (line, sep, after) := Partition(s);
    if sep && line != "" then
      var r := Read(after);
      ReadStep(s, line, after, r);
      Reading([line] + r.lines, r.rest, r.stopped)
    else if !sep then Reading([], line, false)
    else
      assert s == Terminated([]) + "\n" + after;
      Reading([], after, true)
  }

  /** One more complete line in front of what the rest reads. */
  lemma ReadStep(s: string, line: string, after: string, r: Reading)
    requires s == line + "\n" + after && IsLine(line) && AllLines(r.lines)
    requires !r.stopped ==> after == Terminated(r.lines) + r.rest
    requires r.stopped ==> after == Terminated(r.lines) + "\n" + r.rest
    ensures AllLines([line] + r.lines)
    ensures !r.stopped ==> s == Terminated([line] + r.lines) + r.rest
    ensures r.stopped ==> s == Terminated([line] + r.lines) + "\n" + r.rest
  {
    var ls := [line] + r.lines;
    assert ls[1..] == r.lines;
    assert Terminated(ls) == line + "\n" + Terminated(r.lines);
    assert forall i :: 0 < i < |ls| ==> ls[i] == r.lines[i - 1];
  }

  /** `parse_log`: the log lines in order, and the text to keep for the
      next read. */
  method ParseLog(input: string) returns (logs: seq<LogLine>, buff: string)
    ensures logs == MakeLogs(Read(input).lines)
    ensures buff == Read(input).rest
  {
    // The lines are collected first and turned into log lines at the end,
    // which gives the same list as building each log line in the loop.
    var lines: seq<string> := [];
    var p := Partition(input);
    ghost var cur := input;
    assert input == Terminated(lines) + cur;
    while p.1 && p.0 != ""
      invariant p == Partition(cur)
      invariant AllLines(lines) && input == Terminated(lines) + cur
      decreases |cur|
    {
      TerminatedSnoc(lines, p.0, p.2);
      lines := lines + [p.0];
      cur := p.2;
      p := Partition(p.2);
    }
    var line, sep;
    line, sep, buff := p.0, p.1, p.2;
    if !sep {
      buff := line; // the unterminated last line is put back in the buffer
    }
    ReadEnds(input, lines, cur);
    logs := MakeLogs(lines);
  }

  /** Where the loop of `parse_log` leaves off, the reading ends. */
  lemma ReadEnds(input: string, lines: seq<string>, cur: string)
    requires AllLines(lines) && input == Terminated(lines) + cur
    requires !(Partition(cur).1 && Partition(cur).0 != "")
    ensures Read(input).lines == lines
    ensures Read(input).rest == if Partition(cur).1 then Partition(cur).2 else cur
  {
    var p := Partition(cur);
    if !p.1 {
      ReadComplete(lines, cur);
    } else {
      assert input == Terminated(lines) + "\n" + p.2;
      ReadStopsAtBlank(lines, p.2);
    }
  }

  lemma {:induction false} TerminatedSnoc(ls: seq<string>, l: string, rest: string)
    ensures Terminated(ls + [l]) + rest == Terminated(ls) + (l + "\n" + rest)
    decreases |ls|
  {
    if |ls| == 0 {
      assert ls + [l] == [l];
    } else {
      assert (ls + [l])[1..] == ls[1..] + [l];
      TerminatedSnoc(ls[1..], l, rest);
      calc {
        Terminated(ls + [l]) + rest;
        ls[0] + "\n" + Terminated(ls[1..] + [l]) + rest;
        ls[0] + "\n" + (Terminated(ls[1..] + [l]) + rest);
        ls[0] + "\n" + (Terminated(ls[1..]) + (l + "\n" + rest));
        Terminated(ls) + (l + "\n" + rest);
      }
    }
  }

  function MakeLogs(ls: seq<string>): (logs: seq<LogLine>)
    ensures |logs| == |ls|
    ensures forall i :: 0 <= i < |ls| ==> logs[i] == MakeLogLine(ls[i])
  {
    if |ls| == 0 then [] else [MakeLogLine(ls[0])] + MakeLogs(ls[1..])
  }

  lemma MakeLogsAppend(a: seq<string>, b: seq<string>)
    ensures MakeLogs(a + b) == MakeLogs(a) + MakeLogs(b)
  {
  }

  /** Partition splits at the newline that ends a newline-free prefix. */
  lemma {:induction false} PartitionOf(a: string, b: string)
    requires '\n' !in a
    ensures Partition(a + "\n" + b) == (a, true, b)
    decreases |a|
  {
    var s := a + "\n" + b;
    if |a| == 0 {
      assert s == ['\n'] + b;
    } else {
      assert s[0] == a[0] && s[1..] == a[1..] + "\n" + b;
      PartitionOf(a[1..], b);
      assert [a[0]] + a[1..] == a;
    }
  }

  /** Complete lines followed by an unterminated tail are read back as
      those lines, and the tail is kept. */
  lemma ReadComplete(ls: seq<string>, tail: string)
    requires AllLines(ls) && '\n' !in tail
    ensures Read(Terminated(ls) + tail) == Reading(ls, tail, false)
  {
    ReadPrefix(ls, tail);
    NoNewlineKept(tail);
    assert ls + [] == ls;
  }

  /** An empty line ends the reading: what follows it is kept unread. */
  lemma ReadStopsAtBlank(ls: seq<string>, post: string)
    requires AllLines(ls)
    ensures Read(Terminated(ls) + "\n" + post) == Reading(ls, post, true)
  {
    assert Terminated(ls) + "\n" + post == Terminated(ls) + ("\n" + post);
    ReadPrefix(ls, "\n" + post);
    ReadBlank(post);
    assert ls + [] == ls;
  }

  /** An empty line alone stops the reading at once. */
  lemma ReadBlank(post: string)
    ensures Read("\n" + post) == Reading([], post, true)
  {
    PartitionOf("", post);
    assert "" + "\n" + post == "\n" + post;
  }

  /** Text without a newline yields no log and is kept whole. */
  lemma NoNewlineKept(s: string)
    requires '\n' !in s
    ensures Read(s) == Reading([], s, false)
  {
  }

  /** A complete line in front of `rest` is read, then `rest` is. */
  lemma ReadCons(line: string, rest: string)
    requires IsLine(line)
    ensures Read(line + "\n" + rest) == Reading([line] + Read(rest).lines, Read(rest).rest, Read(rest).stopped)
  {
    PartitionOf(line, rest);
  }

  lemma LinesCons(ls: seq<string>, more: seq<string>)
    requires |ls| > 0
    ensures [ls[0]] + (ls[1..] + more) == ls + more
  {
    assert [ls[0]] + ls[1..] == ls;
    assert [ls[0]] + (ls[1..] + more) == ([ls[0]] + ls[1..]) + more;
  }

  /** Complete lines in front of `x` are read, then `x` is. */
  lemma {:induction false} ReadPrefix(ls: seq<string>, x: string)
    requires AllLines(ls)
    ensures Read(Terminated(ls) + x) == Reading(ls + Read(x).lines, Read(x).rest, Read(x).stopped)
    decreases |ls|
  {
    if |ls| == 0 {
      assert Terminated(ls) + x == x;
      assert ls + Read(x).lines == Read(x).lines;
    } else {
      var tl := Terminated(ls[1..]) + x;
      assert Terminated(ls) + x == ls[0] + "\n" + tl;
      ReadCons(ls[0], tl);
      ReadPrefix(ls[1..], x);
      LinesCons(ls, Read(x).lines);
    }
  }

  /** Reading `a` and then, separately, its leftover followed by `b` gives
      what reading `a + b` at once gives, as long as the reading of `a`
      did not stop at an empty line; if it did, `b` stays unread. */
  lemma ReadAppend(a: string, b: string)
    ensures !Read(a).stopped ==>
      Read(a + b) == Reading(Read(a).lines + Read(Read(a).rest + b).lines,
                             Read(Read(a).rest + b).rest, Read(Read(a).rest + b).stopped)
    ensures Read(a).stopped ==> Read(a + b) == Reading(Read(a).lines, Read(a).rest + b, true)
  {
    if !Read(a).stopped {
      ReadAppendGo(a, b);
    } else {
      ReadAppendStopped(a, b);
    }
  }

  lemma ReadAppendGo(a: string, b: string)
    requires !Read(a).stopped
    ensures Read(a + b) == Reading(Read(a).lines + Read(Read(a).rest + b).lines,
                                   Read(Read(a).rest + b).rest, Read(Read(a).rest + b).stopped)
  {
    var r := Read(a);
    ContinuedAppend(a, b, r.lines, r.rest);
  }

  lemma ContinuedAppend(a: string, b: string, ls: seq<string>, rest: string)
    requires AllLines(ls) && a == Terminated(ls) + rest
    ensures Read(a + b) == Reading(ls + Read(rest + b).lines, Read(rest + b).rest, Read(rest + b).stopped)
  {
    assert a + b == Terminated(ls) + (rest + b);
    ReadPrefix(ls, rest + b);
  }

  lemma ReadAppendStopped(a: string, b: string)
    requires Read(a).stopped
    ensures Read(a + b) == Reading(Read(a).lines, Read(a).rest + b, true)
  {
    var r := Read(a);
    StoppedAppend(a, b, r.lines, r.rest);
  }

  lemma StoppedAppend(a: string, b: string, ls: seq<string>, rest: string)
    requires AllLines(ls) && a == Terminated(ls) + "\n" + rest
    ensures Read(a + b) == Reading(ls, rest + b, true)
  {
    assert a + b == Terminated(ls) + "\n" + (rest + b);
    ReadStopsAtBlank(ls, rest + b);
  }

  /** The traces loop of `launch_exec_traces` as written, for one pipe:
      every chunk read is parsed on its own and its leftover is dropped. */
  function TracesAsWritten(chunks: seq<string>): (logs: seq<LogLine>)
    ensures NoNewline(chunks) ==> logs == []
    ensures forall i :: 0 <= i < |logs| ==>
      exists k :: 0 <= k < |chunks| && logs[i] in MakeLogs(Read(chunks[k]).lines)
  {
    if |chunks| == 0 then []
    else
      var head := MakeLogs(Read(chunks[0]).lines);
      var tail := TracesAsWritten(chunks[1..]);
      assert forall k :: 0 <= k < |chunks| - 1 ==> chunks[1..][k] == chunks[k + 1];
      assert forall i :: 0 <= i < |tail| ==> (head + tail)[|head| + i] == tail[i];
      head + tail
  }

  /** No chunk holds a newline. */
  predicate NoNewline(chunks: seq<string>) {
    forall k :: 0 <= k < |chunks| ==> '\n' !in chunks[k]
  }

  /** The same loop with the leftover carried into the next read, as the
      comment in `parse_log` about putting back the unterminated line asks. */
  function TracesCarried(buff: string, chunks: seq<string>): (logs: seq<LogLine>)
    ensures '\n' !in buff && NoNewline(chunks) ==> logs == []
    decreases |chunks|
  {
    if |chunks| == 0 then []
    else
      var r := Read(buff + chunks[0]);
      assert forall k :: 0 <= k < |chunks| - 1 ==> chunks[1..][k] == chunks[k + 1];
      assert '\n' !in buff && '\n' !in chunks[0] ==> '\n' !in buff + chunks[0] && r.lines == [] && r.rest == buff + chunks[0];
      MakeLogs(r.lines) + TracesCarried(r.rest, chunks[1..])
  }

  function Concat(chunks: seq<string>): string {
    if |chunks| == 0 then "" else chunks[0] + Concat(chunks[1..])
  }

  /** Two reads as written: each is parsed on its own. */
  lemma TracesAsWrittenPair(a: string, b: string)
    ensures TracesAsWritten([a, b]) == MakeLogs(Read(a).lines) + MakeLogs(Read(b).lines)
  {
    var chunks := [a, b];
    assert chunks[1..] == [b] && [b][1..] == [];
    var tail := MakeLogs(Read(b).lines);
    assert TracesAsWritten([b]) == tail + [];
    assert tail + [] == tail;
  }

  /** Two reads with the leftover carried, from an empty buffer. */
  lemma TracesCarriedPair(a: string, b: string)
    ensures TracesCarried("", [a, b]) == MakeLogs(Read(a).lines) + MakeLogs(Read(Read(a).rest + b).lines)
  {
    var chunks := [a, b];
    assert chunks[1..] == [b] && [b][1..] == [];
    assert "" + a == a;
    var r1 := Read(a);
    var r2 := Read(r1.rest + b);
    assert TracesCarried(r1.rest, [b]) == MakeLogs(r2.lines) + TracesCarried(r2.rest, []);
    assert TracesCarried("", chunks) == MakeLogs(r1.lines) + TracesCarried(r1.rest, [b]);
  }

  /** As written, a line split across two reads loses its head, and its
      tail is logged at the wrong level. */
  lemma SplitLineBrokenAsWritten()
    ensures TracesAsWritten(["INF", "O done\n"]) == [LogLine(Error, "O done")]
  {
    assert "O done\n" == "O done" + "\n";
    AsWrittenTailOnly("INF", "O done");
    TailLogLine();
  }

  /** Without the carry, a head holding no newline is dropped and only the
      tail is logged, as a line of its own. */
  lemma AsWrittenTailOnly(a: string, tail: string)
    requires '\n' !in a && IsLine(tail)
    ensures TracesAsWritten([a, tail + "\n"]) == [MakeLogLine(tail)]
  {
    TracesAsWrittenPair(a, tail + "\n");
    NoNewlineKept(a);
    ReadComplete([tail], "");
    assert Terminated([tail]) + "" == tail + "\n";
    assert MakeLogs([]) + MakeLogs([tail]) == [MakeLogLine(tail)];
  }

  /** Carrying the leftover, the same two reads give the one INFO line. */
  lemma SplitLineWholeCarried()
    ensures TracesCarried("", ["INF", "O done\n"]) == [LogLine(Info, "INFO done")]
  {
    assert "INF" + "O done\n" == "INFO done" + "\n";
    CarriedOneLine("INF", "O done\n", "INFO done");
    WholeLogLine();
  }

  /** A line cut in two by the reads, its head holding no newline, is
      logged once and whole when the leftover is carried. */
  lemma CarriedOneLine(a: string, b: string, line: string)
    requires '\n' !in a && IsLine(line) && a + b == line + "\n"
    ensures TracesCarried("", [a, b]) == [MakeLogLine(line)]
  {
    TracesCarriedPair(a, b);
    NoNewlineKept(a);
    ReadComplete([line], "");
    assert Terminated([line]) + "" == line + "\n";
    assert MakeLogs([]) + MakeLogs([line]) == [MakeLogLine(line)];
  }

  lemma TailLogLine()
    ensures MakeLogLine("O done") == LogLine(Error, "O done")
  {
    PlainMessage("O done");
    OtherLevel("O done");
  }

  lemma WholeLogLine()
    ensures MakeLogLine("INFO done") == LogLine(Info, "INFO done")
  {
    PlainMessage("INFO done");
    InfoLevel("INFO done");
  }

  /** A line whose first letter starts no level word is an error line. */
  lemma OtherLevel(s: string)
    requires |s| > 0 && s[0] !in {'D', 'T', 'N', 'I', 'W'}
    ensures Level(s) == Error
  {
    NotPrefix("DEBUG", s);
    NotPrefix("TRACE", s);
    NotPrefix("NOTICE", s);
    NotPrefix("INFO", s);
    NotPrefix("WARN", s);
  }

  /** A line that starts with `INFO` is an info line. */
  lemma InfoLevel(s: string)
    requires |s| >= 4 && s[0] == 'I' && s[1] == 'N' && s[2] == 'F' && s[3] == 'O'
    ensures Level(s) == Info
  {
    NotPrefix("DEBUG", s);
    NotPrefix("TRACE", s);
    NotPrefix("NOTICE", s);
    assert s[..4] == "INFO";
  }

  lemma NotPrefix(p: string, s: string)
    requires |p| > 0 && |s| > 0 && p[0] != s[0]
    ensures !(p <= s)
  {
  }

  /** A line with no hyphen is its own message. */
  lemma PlainMessage(s: string)
    requires '-' !in s
    ensures Message(s) == s
  {
    NoDash(s);
  }

  /** A line with no hyphen has no " - " in it. */
  lemma NoDash(s: string)
    requires '-' !in s
    ensures Find(s, Dash) == -1
  {
    forall k | 0 <= k && k + 3 <= |s| ensures !OccursAt(s, Dash, k) {
      assert s[k..k + 3][1] == s[k + 1] != '-';
    }
  }

  /** Carrying the leftover, the chunks are logged exactly as the whole
      output read at once, unless that output holds an empty line. */
  lemma {:induction false} CarriedIsWhole(buff: string, chunks: seq<string>)
    requires '\n' !in buff
    requires !Read(buff + Concat(chunks)).stopped
    ensures TracesCarried(buff, chunks) == MakeLogs(Read(buff + Concat(chunks)).lines)
    decreases |chunks|
  {
    if |chunks| == 0 {
      assert buff + Concat(chunks) == buff;
      assert buff == Terminated([]) + buff;
      ReadComplete([], buff);
    } else {
      var c := chunks[0];
      var whole := buff + Concat(chunks);
      assert whole == (buff + c) + Concat(chunks[1..]);
      ReadAppend(buff + c, Concat(chunks[1..]));
      var r := Read(buff + c);
      CarriedIsWhole(r.rest, chunks[1..]);
      MakeLogsAppend(r.lines, Read(r.rest + Concat(chunks[1..])).lines);
    }
  }

  /** `traces += "##  {}  ##".format(msg)` for every logged line. */
  function TracesText(logs: seq<LogLine>): (t: string)
    ensures |logs| == 0 <==> t == ""
    ensures |logs| > 0 ==> "##  " + logs[0].msg + "  ##" <= t
  {
    if |logs| == 0 then "" else "##  " + logs[0].msg + "  ##" + TracesText(logs[1..])
  }
}
