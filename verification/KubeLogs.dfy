/**
  Following the log of a pod across reconnects.  Every reconnect asks for the log since the last
  time stamp written; the server replays from there or from earlier, and the stream may be cut after
  any byte.
 */
module KubeLogs {

  import opened Options

  /** Reads a time stamp; an instant is a number, and the zero time comes before every stamp in a log. */
  type Parser = string -> Option<int>

  const ZERO_TIME: int := 0

  // ----- one line

  /** The line up to its first space, and what follows the space if there is one. */
  function SplitAtSpace(line: string): (string, Option<string>) {
    if line == "" then ("", None)
    else if line[0] == ' ' then ("", Some(line[1..]))
    else
      var (head, tail) := SplitAtSpace(line[1..]);
      ([line[0]] + head, tail)
  }

  datatype Processed = Processed(msg: string, newSinceTime: int, shouldSkip: bool)

  function ProcessLogLine(parse: Parser, line: string, sinceTime: int, successfulWrite: bool): Processed {
    var (stamp, rest) := SplitAtSpace(line);
    match parse(stamp)
    case None => Processed(line, sinceTime, false)
    case Some(t) =>
      if t <= sinceTime && !successfulWrite then Processed("", sinceTime, true)
      else Processed(if rest.Some? then rest.value else "", t, false)
  }

  /** A line of the pod log: a stamp, a space and the text the container wrote, with its newline. */
  datatype Entry = Entry(stamp: string, time: int, text: string)

  function Rendered(e: Entry): string {
    e.stamp + " " + e.text
  }

  ghost predicate Finished(e: Entry) {
    e.text != "" && e.text[|e.text| - 1] == '\n'
  }

  ghost predicate EntryOk(parse: Parser, e: Entry) {
    && ' ' !in e.stamp && '\n' !in e.stamp && parse(e.stamp) == Some(e.time) && e.time > ZERO_TIME
    && (forall p :: 0 <= p < |e.text| - 1 ==> e.text[p] != '\n')
  }

  ghost predicate LineOk(parse: Parser, log: seq<Entry>, i: nat)
    requires i < |log|
  {
    && EntryOk(parse, log[i]) && (i < |log| - 1 ==> Finished(log[i]))
    && (forall j :: i < j < |log| ==> log[i].time < log[j].time)
  }

  /** Time stamps increase strictly from line to line; only the last line may lack its newline. */
  ghost predicate LogOk(parse: Parser, log: seq<Entry>) {
    forall i: nat :: i < |log| ==> LineOk(parse, log, i)
  }

  /** The text without its newline. */
  ghost function Body(e: Entry): (b: string) {
    if Finished(e) then e.text[..|e.text| - 1] else e.text
  }

  ghost function Line(e: Entry): string {
    Body(e) + "\n"
  }

  /** What the first w lines of the log say: their texts, each with its newline. */
  ghost function Texts(log: seq<Entry>, w: nat): string
    requires w <= |log|
  {
    if w == 0 then "" else Texts(log, w - 1) + Line(log[w - 1])
  }

  lemma {:induction false} SplitRendered(stamp: string, text: string)
    requires ' ' !in stamp
    ensures SplitAtSpace(stamp + " " + text) == (stamp, Some(text))
  {
    var line := stamp + " " + text;
    if stamp == "" {
      assert line[1..] == text;
    } else {
      assert line[1..] == stamp[1..] + " " + text;
      SplitRendered(stamp[1..], text);
      assert stamp == [stamp[0]] + stamp[1..];
    }
  }

  lemma {:induction false} SplitWithoutSpace(line: string)
    requires ' ' !in line
    ensures SplitAtSpace(line) == (line, None)
  {
    if line != "" {
      SplitWithoutSpace(line[1..]);
      assert line == [line[0]] + line[1..];
    }
  }

  lemma ProcessRendered(parse: Parser, e: Entry, sinceTime: int, successfulWrite: bool)
    requires ' ' !in e.stamp && parse(e.stamp) == Some(e.time)
    ensures ProcessLogLine(parse, Rendered(e), sinceTime, successfulWrite) ==
            if e.time <= sinceTime && !successfulWrite then Processed("", sinceTime, true)
            else Processed(e.text, e.time, false)
  {
    SplitRendered(e.stamp, e.text);
  }

  // ----- the server

  datatype StreamEnd =
    | Broken            // a read error other than the end of the stream
    | StillRunning      // the stream ended but the container runs on, or the pod could not be fetched
    | Terminated        // the stream ended and the container has terminated
    | Unrecoverable     // cancelled, container missing or in no valid state, pod or stream not to be had

  /**
    One connection: the server replays `overlap` lines more than asked for, the stream is cut after
    `bytes` bytes if it is that long, and then ends as told.
   */
  datatype Session = Session(overlap: nat, bytes: nat, end: StreamEnd)

  /** The lines from the i-th on, as the server renders them. */
  function Stream(log: seq<Entry>, i: nat): string
    decreases |log| - i
  {
    if i >= |log| then "" else Rendered(log[i]) + Stream(log, i + 1)
  }

  function Prefix(s: string, c: nat): string {
    if c < |s| then s[..c] else s
  }

  /** The number of lines no later than t. */
  function LinesUntil(log: seq<Entry>, t: int): (n: nat)
    ensures n <= |log|
  {
    if log == [] || log[0].time > t then 0 else 1 + LinesUntil(log[1..], t)
  }

  function Back(n: nat, overlap: nat): (first: nat)
    ensures first <= n
  {
    if overlap > n then 0 else n - overlap
  }

  /** What a connection delivers when it is asked for the log since the given time. */
  function Deliver(log: seq<Entry>, s: Session, sinceTime: int): string {
    Prefix(Stream(log, Back(LinesUntil(log, sinceTime), s.overlap)), s.bytes)
  }

  // ----- where a stream is cut

  /** A place in the log: `offset` bytes into the rendered line number `line`. */
  datatype Place = Place(line: nat, offset: nat)

  /** The place c bytes after the beginning of line i; whole lines are counted out. */
  ghost function Locate(log: seq<Entry>, i: nat, c: nat): (p: Place)
    requires i <= |log|
    ensures i <= p.line <= |log|
    ensures if p.line == |log| then p.offset == 0
            else p.offset <= |Rendered(log[p.line])| - (if Finished(log[p.line]) then 1 else 0)
    decreases |log| - i
  {
    if i == |log| then Place(i, 0)
    else if c < |Rendered(log[i])| then Place(i, c)
    else if !Finished(log[i]) then Place(i, |Rendered(log[i])|)
    else Locate(log, i + 1, c - |Rendered(log[i])|)
  }

  ghost function Max(a: nat, b: nat): nat {
    if a > b then a else b
  }

  /** Where the last of the first n sessions was cut. */
  ghost function CutAt(log: seq<Entry>, sessions: seq<Session>, n: nat): (p: Place)
    requires 0 < n <= |sessions|
    ensures p.line <= |log|
    decreases n, 0
  {
    Locate(log, Back(Furthest(log, sessions, n - 1), sessions[n - 1].overlap), sessions[n - 1].bytes)
  }

  /** The number of lines that some of the first n sessions delivered whole. */
  ghost function Furthest(log: seq<Entry>, sessions: seq<Session>, n: nat): (w: nat)
    requires n <= |sessions|
    ensures w <= |log|
    decreases n, 1
  {
    if n == 0 then 0 else Max(Furthest(log, sessions, n - 1), CutAt(log, sessions, n).line)
  }

  lemma {:induction false} LinesUntilWritten(log: seq<Entry>, w: nat, t: int)
    requires w <= |log| && (forall i :: 0 <= i < w ==> log[i].time <= t) && (w < |log| ==> log[w].time > t)
    ensures LinesUntil(log, t) == w
  {
    if w > 0 {
      LinesUntilWritten(log[1..], w - 1, t);
    }
  }

  /** Asking for the log since the last stamp written is asking for the lines not written. */
  lemma WrittenIsUntil(parse: Parser, log: seq<Entry>, w: nat)
    requires LogOk(parse, log) && w <= |log|
    ensures LinesUntil(log, StampAfter(log, w)) == w
  {
    forall i: nat | i < w ensures log[i].time <= StampAfter(log, w) {
      assert LineOk(parse, log, i);
    }
    assert w < |log| ==> LineOk(parse, log, w) && (w > 0 ==> LineOk(parse, log, w - 1));
    LinesUntilWritten(log, w, StampAfter(log, w));
  }

  // ----- the reader

  /** The number of bytes up to the first newline and with it, or all of them. */
  function LineLength(s: string): (n: nat)
    ensures n <= |s|
    ensures '\n' in s ==> n > 0
  {
    if s == "" then 0 else if s[0] == '\n' then 1 else 1 + LineLength(s[1..])
  }

  lemma {:induction false} LineLengthIs(s: string, n: nat)
    requires 0 < n <= |s| && s[n - 1] == '\n' && '\n' !in s[..n - 1]
    ensures LineLength(s) == n
  {
    if n > 1 {
      assert s[1..][..n - 2] == s[..n - 1][1..];
      LineLengthIs(s[1..], n - 1);
    }
  }

  lemma NewlineIsLast(parse: Parser, e: Entry, k: nat)
    requires EntryOk(parse, e) && k <= |Rendered(e)|
    ensures '\n' in Rendered(e)[..k] <==> Finished(e) && k == |Rendered(e)|
  {
    var line := Rendered(e);
    if Finished(e) && k == |line| {
      assert line[..k][k - 1] == '\n';
    } else {
      forall p | 0 <= p < k ensures line[p] != '\n' {
        assert p > |e.stamp| ==> line[p] == e.text[p - |e.stamp| - 1];
      }
    }
  }

  lemma NewlineLeftIff(parse: Parser, log: seq<Entry>, i: nat, c: nat)
    requires LogOk(parse, log) && i <= |log|
    ensures '\n' in Prefix(Stream(log, i), c) <==> i < |log| && Finished(log[i]) && |Rendered(log[i])| <= c
  {
    if i < |log| {
      var rest, line := Prefix(Stream(log, i), c), Rendered(log[i]);
      var k := if c < |line| then c else |line|;
      assert LineOk(parse, log, i);
      NewlineIsLast(parse, log[i], k);
      assert rest[..k] == line[..k];
      if c < |line| || !Finished(log[i]) {
        assert !Finished(log[i]) ==> Stream(log, i + 1) == "";
        assert rest == rest[..k];
      }
    }
  }

  /** As long as there is a newline left, a whole line comes off the stream and the cut stays where it is. */
  lemma WholeLine(parse: Parser, log: seq<Entry>, i: nat, c: nat)
    requires LogOk(parse, log) && i <= |log| && '\n' in Prefix(Stream(log, i), c)
    ensures i < |log| && Finished(log[i])
    ensures var rest := Prefix(Stream(log, i), c);
            var n := LineLength(rest);
            && n <= c && rest[..n] == Rendered(log[i]) && rest[n..] == Prefix(Stream(log, i + 1), c - n)
            && Locate(log, i, c) == Locate(log, i + 1, c - n)
  {
    NewlineLeftIff(parse, log, i, c);
    var rest, line := Prefix(Stream(log, i), c), Rendered(log[i]);
    assert rest == line + Prefix(Stream(log, i + 1), c - |line|);
    NewlineIsLast(parse, log[i], |line| - 1) by { assert LineOk(parse, log, i); }
    assert rest[..|line| - 1] == line[..|line| - 1];
    LineLengthIs(rest, |line|);
  }

  /** When no newline is left, the rest is the beginning of the line the cut is in. */
  lemma FragmentLeft(parse: Parser, log: seq<Entry>, i: nat, c: nat)
    requires LogOk(parse, log) && i <= |log| && '\n' !in Prefix(Stream(log, i), c)
    ensures Locate(log, i, c).line == i
    ensures Prefix(Stream(log, i), c) == if i == |log| then "" else Prefix(Rendered(log[i]), Locate(log, i, c).offset)
  {
    NewlineLeftIff(parse, log, i, c);
    assert i < |log| ==> LineOk(parse, log, i);
  }

  /** The stamp of the last of the first w lines. */
  ghost function StampAfter(log: seq<Entry>, w: nat): int
    requires w <= |log|
  {
    if w == 0 then ZERO_TIME else log[w - 1].time
  }

  /** Exactly the texts of the first w lines are written, and sinceTime is the stamp of the last of them. */
  ghost predicate Written(log: seq<Entry>, w: nat, sinceTime: int, stdout: string) {
    w <= |log| && stdout == Texts(log, w) && sinceTime == StampAfter(log, w)
  }

  /** What the reader holds during one connection: the bytes to come, and what it has written. */
  datatype Reader = Reader(rest: string, sinceTime: int, successfulWrite: bool, stdout: string)

  /** One turn of the loop: a line of n bytes has been processed. */
  function Turn(r: Reader, n: nat, p: Processed): Reader
    requires n <= |r.rest|
  {
    Reader(r.rest[n..], p.newSinceTime, r.successfulWrite || !p.shouldSkip,
           if p.shouldSkip then r.stdout else r.stdout + p.msg)
  }

  /** The loop over the complete lines; a fragment is left over. */
  function ReadLines(parse: Parser, r: Reader): Reader
    decreases |r.rest|
  {
    if '\n' !in r.rest then r
    else
      var n := LineLength(r.rest);
      ReadLines(parse, Turn(r, n, ProcessLogLine(parse, r.rest[..n], r.sinceTime, r.successfulWrite)))
  }

  method ReadStream(parse: Parser, stream: string, sinceTime0: int, stdout0: string)
    returns (sinceTime: int, successfulWrite: bool, stdout: string, fragment: string)
    ensures Reader(fragment, sinceTime, successfulWrite, stdout) ==
            ReadLines(parse, Reader(stream, sinceTime0, false, stdout0))
    ensures '\n' !in fragment
  {
    sinceTime, successfulWrite, stdout := sinceTime0, false, stdout0;
    fragment := stream;
    while '\n' in fragment
      invariant ReadLines(parse, Reader(fragment, sinceTime, successfulWrite, stdout)) ==
                ReadLines(parse, Reader(stream, sinceTime0, false, stdout0))
      decreases |fragment|
    {
      var n := LineLength(fragment);
      var line := fragment[..n];
      fragment := fragment[n..];
      var p := ProcessLogLine(parse, line, sinceTime, successfulWrite);
      sinceTime := p.newSinceTime;
      if !p.shouldSkip {
        stdout := stdout + p.msg;
        successfulWrite := true;
      }
    }
  }

  /**
    The reader at the beginning of line i, c bytes before the cut, when w lines were written before
    this connection.
   */
  ghost function ReaderAt(log: seq<Entry>, w: nat, i: nat, c: nat): Reader
    requires w <= |log| && i <= |log|
  {
    Reader(Prefix(Stream(log, i), c), StampAfter(log, Max(w, i)), i > w, Texts(log, Max(w, i)))
  }

  /** The reader when it has come to the cut. */
  ghost function ReaderAtCut(log: seq<Entry>, w: nat, cut: Place): Reader
    requires w <= |log| && cut.line <= |log|
  {
    var fragment := if cut.line == |log| then "" else Prefix(Rendered(log[cut.line]), cut.offset);
    Reader(fragment, StampAfter(log, Max(w, cut.line)), cut.line > w, Texts(log, Max(w, cut.line)))
  }

  ghost function WholeLineProcessed(log: seq<Entry>, w: nat, i: nat): Processed
    requires w <= |log| && i < |log|
  {
    if i < w then Processed("", StampAfter(log, w), true) else Processed(Line(log[i]), log[i].time, false)
  }

  /** A whole line is written if and only if it was not before. */
  lemma ProcessNext(parse: Parser, log: seq<Entry>, w: nat, i: nat)
    requires LogOk(parse, log) && w <= |log| && i < |log| && Finished(log[i])
    ensures ProcessLogLine(parse, Rendered(log[i]), StampAfter(log, Max(w, i)), i > w) == WholeLineProcessed(log, w, i)
  {
    assert LineOk(parse, log, i) && (i < w ==> log[i].time <= log[w - 1].time);
    assert 0 < i ==> LineOk(parse, log, i - 1);
    ProcessRendered(parse, log[i], StampAfter(log, Max(w, i)), i > w);
    assert Line(log[i]) == log[i].text;
  }

  lemma TurnOutput(log: seq<Entry>, w: nat, i: nat, stdout: string)
    requires w <= |log| && i < |log| && stdout == Texts(log, Max(w, i))
    ensures var p := WholeLineProcessed(log, w, i);
            (if p.shouldSkip then stdout else stdout + p.msg) == Texts(log, Max(w, i + 1))
  {
    TextsAfter(log, w, i);
  }

  lemma TurnIsNext(log: seq<Entry>, w: nat, i: nat, c: nat, n: nat, r: Reader)
    requires w <= |log| && i < |log| && n <= c && n <= |r.rest| && r == ReaderAt(log, w, i, c)
    requires r.rest[n..] == Prefix(Stream(log, i + 1), c - n)
    ensures Turn(r, n, WholeLineProcessed(log, w, i)) == ReaderAt(log, w, i + 1, c - n)
  {
    var t, next := Turn(r, n, WholeLineProcessed(log, w, i)), ReaderAt(log, w, i + 1, c - n);
    assert t.stdout == next.stdout by {
      TurnOutput(log, w, i, r.stdout);
    }
    assert t.sinceTime == next.sinceTime && t.successfulWrite == next.successfulWrite;
    SameReader(t, next);
  }

  lemma SameReader(a: Reader, b: Reader)
    requires a.rest == b.rest && a.sinceTime == b.sinceTime && a.successfulWrite == b.successfulWrite
             && a.stdout == b.stdout
    ensures a == b
  {
  }

  lemma TextsAfter(log: seq<Entry>, w: nat, i: nat)
    requires w <= |log| && i < |log|
    ensures if i < w then Texts(log, Max(w, i + 1)) == Texts(log, Max(w, i))
            else Texts(log, Max(w, i + 1)) == Texts(log, Max(w, i)) + Line(log[i])
  {
    if i < w {
      assert Max(w, i + 1) == Max(w, i);
    } else {
      assert Max(w, i + 1) == i + 1 && Max(w, i) == i;
    }
  }

  /** Taking a line of n bytes off the stream, processed as p, turns the reader into `next`. */
  ghost predicate TurnsInto(parse: Parser, r: Reader, n: nat, p: Processed, next: Reader) {
    && '\n' in r.rest && n == LineLength(r.rest)
    && p == ProcessLogLine(parse, r.rest[..n], r.sinceTime, r.successfulWrite) && Turn(r, n, p) == next
  }

  lemma ReadOn(parse: Parser, r: Reader, n: nat, p: Processed, next: Reader, end: Reader)
    requires TurnsInto(parse, r, n, p, next) && ReadLines(parse, next) == end
    ensures ReadLines(parse, r) == end
  {
  }

  /** Reading on from the beginning of line i, c bytes before the cut, leads to `end`. */
  ghost predicate ReadsTo(parse: Parser, log: seq<Entry>, w: nat, i: nat, c: nat, end: Reader)
    requires w <= |log| && i <= |log|
  {
    ReadLines(parse, ReaderAt(log, w, i, c)) == end
  }

  /** The whole of line i comes before the cut. */
  ghost predicate WholeBefore(log: seq<Entry>, i: nat, c: nat) {
    i < |log| && Finished(log[i]) && |Rendered(log[i])| <= c
  }

  /** One line off the stream is one line further in the log. */
  lemma ReaderTurns(parse: Parser, log: seq<Entry>, w: nat, i: nat, c: nat)
    requires LogOk(parse, log) && w <= |log| && WholeBefore(log, i, c)
    ensures var n := |Rendered(log[i])|;
            TurnsInto(parse, ReaderAt(log, w, i, c), n, WholeLineProcessed(log, w, i), ReaderAt(log, w, i + 1, c - n))
  {
    var r, n := ReaderAt(log, w, i, c), |Rendered(log[i])|;
    assert r.rest == Prefix(Stream(log, i), c);
    assert r.sinceTime == StampAfter(log, Max(w, i)) && r.successfulWrite == (i > w);
    NewlineLeftIff(parse, log, i, c);
    WholeLine(parse, log, i, c);
    ProcessNext(parse, log, w, i);
    assert r.rest[..n] == Rendered(log[i]) && r.rest[n..] == Prefix(Stream(log, i + 1), c - n);
    TurnIsNext(log, w, i, c, n, r);
  }

  lemma ReadNext(parse: Parser, log: seq<Entry>, w: nat, i: nat, c: nat, end: Reader)
    requires LogOk(parse, log) && w <= |log| && WholeBefore(log, i, c)
    requires ReadsTo(parse, log, w, i + 1, c - |Rendered(log[i])|, end)
    ensures ReadsTo(parse, log, w, i, c, end)
  {
    var n := |Rendered(log[i])|;
    ReaderTurns(parse, log, w, i, c);
    ReadOn(parse, ReaderAt(log, w, i, c), n, WholeLineProcessed(log, w, i), ReaderAt(log, w, i + 1, c - n), end);
  }

  /** The cut is c bytes after the beginning of line i, and `end` is the reader there. */
  ghost predicate EndsThere(log: seq<Entry>, w: nat, i: nat, c: nat, end: Reader) {
    w <= |log| && i <= |log| && end == ReaderAtCut(log, w, Locate(log, i, c))
  }

  lemma EndsThereNext(log: seq<Entry>, w: nat, i: nat, c: nat, end: Reader)
    requires EndsThere(log, w, i, c, end) && WholeBefore(log, i, c)
    ensures EndsThere(log, w, i + 1, c - |Rendered(log[i])|, end)
  {
    assert Locate(log, i, c) == Locate(log, i + 1, c - |Rendered(log[i])|);
  }

  lemma ReadEnd(parse: Parser, log: seq<Entry>, w: nat, i: nat, c: nat, end: Reader)
    requires LogOk(parse, log) && EndsThere(log, w, i, c, end) && !WholeBefore(log, i, c)
    ensures ReadsTo(parse, log, w, i, c, end)
  {
    NewlineLeftIff(parse, log, i, c);
    FragmentLeft(parse, log, i, c);
  }

  /** Every connection writes the whole lines it delivers that were not written before, and nothing else. */
  lemma {:induction false} ReadLinesDelivers(parse: Parser, log: seq<Entry>, w: nat, i: nat, c: nat, end: Reader)
    requires LogOk(parse, log) && EndsThere(log, w, i, c, end)
    ensures ReadsTo(parse, log, w, i, c, end)
    decreases |log| - i
  {
    if WholeBefore(log, i, c) {
      assert ReadsTo(parse, log, w, i + 1, c - |Rendered(log[i])|, end) by {
        EndsThereNext(log, w, i, c, end);
        ReadLinesDelivers(parse, log, w, i + 1, c - |Rendered(log[i])|, end);
      }
      ReadNext(parse, log, w, i, c, end);
    } else {
      ReadEnd(parse, log, w, i, c, end);
    }
  }

  /** What a connection delivers is read as the lines from where it begins to where it is cut. */
  lemma SessionDelivers(parse: Parser, log: seq<Entry>, w: nat, s: Session)
    requires LogOk(parse, log) && w <= |log|
    ensures ReadLines(parse, Reader(Deliver(log, s, StampAfter(log, w)), StampAfter(log, w), false, Texts(log, w))) ==
            ReaderAtCut(log, w, Locate(log, Back(w, s.overlap), s.bytes))
  {
    WrittenIsUntil(parse, log, w);
    var first := Back(w, s.overlap);
    assert Max(w, first) == w;
    ReadLinesDelivers(parse, log, w, first, s.bytes, ReaderAtCut(log, w, Locate(log, first, s.bytes)));
  }

  /** The i-th connection: replay from the line asked for or earlier, then the bytes up to the cut. */
  method Follow(parse: Parser, log: seq<Entry>, sessions: seq<Session>, i: nat, sinceTime0: int, stdout0: string)
    returns (sinceTime: int, successfulWrite: bool, stdout: string, fragment: string)
    requires LogOk(parse, log) && i < |sessions| && Written(log, Furthest(log, sessions, i), sinceTime0, stdout0)
    ensures Reader(fragment, sinceTime, successfulWrite, stdout) ==
            ReaderAtCut(log, Furthest(log, sessions, i), CutAt(log, sessions, i + 1))
    ensures Written(log, Furthest(log, sessions, i + 1), sinceTime, stdout)
    ensures successfulWrite <==> CutAt(log, sessions, i + 1).line > Furthest(log, sessions, i)
    ensures stdout + TailOutput(parse, fragment, sinceTime, successfulWrite) == FinalOutput(parse, log, sessions, i + 1)
  {
    SessionDelivers(parse, log, Furthest(log, sessions, i), sessions[i]);
    var stream := Deliver(log, sessions[i], sinceTime0);
    sinceTime, successfulWrite, stdout, fragment := ReadStream(parse, stream, sinceTime0, stdout0);
    RunFinishes(parse, log, sessions, i + 1, fragment, sinceTime, successfulWrite, stdout);
  }

  /** What a fragment adds to the output when the container has terminated. */
  function TailOutput(parse: Parser, fragment: string, sinceTime: int, successfulWrite: bool): string {
    if fragment == "" then ""
    else
      var msg := ProcessLogLine(parse, fragment, sinceTime, successfulWrite).msg;
      if msg == "" then "" else msg + "\n"
  }

  /** How the reader came to an end, if it did. */
  datatype Finish = Following | GaveUp | Complete

  // ----- the retries, counted from the sessions

  /** The session with this index delivered a whole line that none before it had delivered. */
  ghost predicate Wrote(log: seq<Entry>, sessions: seq<Session>, k: nat)
    requires k < |sessions|
  {
    CutAt(log, sessions, k + 1).line > Furthest(log, sessions, k)
  }

  /** The last of the first n sessions that wrote a line, or the first session if none did. */
  ghost function LastWrite(log: seq<Entry>, sessions: seq<Session>, n: nat): (k: nat)
    requires n <= |sessions|
    ensures k <= n && (n > 0 ==> k < n)
  {
    if n == 0 then 0 else if Wrote(log, sessions, n - 1) then n - 1 else LastWrite(log, sessions, n - 1)
  }

  /** How many of the sessions from k on and before n broke. */
  function Breaks(sessions: seq<Session>, k: nat, n: nat): nat
    requires k <= n <= |sessions|
  {
    if k == n then 0 else Breaks(sessions, k, n - 1) + if sessions[n - 1].end == Broken then 1 else 0
  }

  /**
    The breaks among the first n sessions that count: those since the last session that wrote a
    line, that one included.
   */
  ghost function BreaksInARow(log: seq<Entry>, sessions: seq<Session>, n: nat): nat
    requires n <= |sessions|
  {
    Breaks(sessions, LastWrite(log, sessions, n), n)
  }

  /** A session that writes makes earlier breaks count no more, and one that breaks counts itself. */
  lemma BreaksNext(log: seq<Entry>, sessions: seq<Session>, n: nat)
    requires n < |sessions|
    ensures BreaksInARow(log, sessions, n + 1) ==
            (if Wrote(log, sessions, n) then 0 else BreaksInARow(log, sessions, n))
            + (if sessions[n].end == Broken then 1 else 0)
  {
    assert Breaks(sessions, n, n) == 0;
  }

  /** After n sessions the reader gives up: the last cannot be recovered from, or broke once too often. */
  ghost predicate MustGiveUp(log: seq<Entry>, sessions: seq<Session>, n: nat, retries: int)
    requires n <= |sessions|
  {
    && n > 0
    && (|| sessions[n - 1].end == Unrecoverable
        || (sessions[n - 1].end == Broken && BreaksInARow(log, sessions, n) >= retries))
  }

  /** After n sessions the reader connects again: the container runs on, or the stream broke and may do so again. */
  ghost predicate GoesOn(log: seq<Entry>, sessions: seq<Session>, n: nat, retries: int)
    requires n <= |sessions|
  {
    || n == 0 || sessions[n - 1].end == StillRunning
    || (sessions[n - 1].end == Broken && BreaksInARow(log, sessions, n) < retries)
  }

  /** One turn of the reconnect loop. */
  method Connect(parse: Parser, log: seq<Entry>, sessions: seq<Session>, i: nat, retries: int,
                 retriesLeft0: int, sinceTime0: int, stdout0: string)
    returns (retriesLeft: int, sinceTime: int, stdout: string, finish: Finish)
    requires LogOk(parse, log) && i < |sessions| && Written(log, Furthest(log, sessions, i), sinceTime0, stdout0)
    requires retriesLeft0 == retries - BreaksInARow(log, sessions, i)
    ensures retriesLeft == retries - BreaksInARow(log, sessions, i + 1)
    ensures finish.GaveUp? <==> MustGiveUp(log, sessions, i + 1, retries)
    ensures finish.Following? <==> GoesOn(log, sessions, i + 1, retries)
    ensures finish.Complete? <==> sessions[i].end == Terminated
    ensures if finish.Complete? then stdout == FinalOutput(parse, log, sessions, i + 1)
            else Written(log, Furthest(log, sessions, i + 1), sinceTime, stdout)
  {
    var end, successfulWrite, fragment := sessions[i].end, false, "";
    sinceTime, successfulWrite, stdout, fragment := Follow(parse, log, sessions, i, sinceTime0, stdout0);
    BreaksNext(log, sessions, i);
    retriesLeft, finish := retriesLeft0, Following;
    if successfulWrite {
      retriesLeft := retries;
    }
    match end
    case Broken =>
      retriesLeft := retriesLeft - 1;
      if retriesLeft <= 0 {
        finish := GaveUp;
      }
    case StillRunning =>
    case Unrecoverable => finish := GaveUp;
    case Terminated =>
      finish := Complete;
      stdout := stdout + TailOutput(parse, fragment, sinceTime, successfulWrite);
  }

  /**
    The reconnect loop.  It goes on until the first session that finishes it, and no further.  After
    any pattern of connections the output is the texts of a prefix of the log, without repetition or
    gap, as long as the furthest line that any connection delivered whole; on the termination of the
    container it still is if and only if the last connection was cut at a harmless place.
   */
  method KubeLoggingWithReconnect(parse: Parser, log: seq<Entry>, sessions: seq<Session>, retries: int)
    returns (stdout: string, finish: Finish, used: nat)
    requires LogOk(parse, log)
    ensures used <= |sessions| && (finish.Following? ==> used == |sessions|)
    ensures finish.GaveUp? <==> MustGiveUp(log, sessions, used, retries)
    ensures finish.Complete? <==> used > 0 && sessions[used - 1].end == Terminated
    ensures forall i :: 0 <= i < used ==> GoesOn(log, sessions, i, retries)
    ensures !finish.Complete? ==> stdout == Texts(log, Furthest(log, sessions, used))
    ensures finish.Complete? ==> stdout == FinalOutput(parse, log, sessions, used)
    ensures finish.Complete? ==> (IsPrefixOf(stdout, log) <==> CutHarmlessly(parse, log, sessions, used))
  {
    var sinceTime, retryGetLogStream := ZERO_TIME, retries;
    stdout, finish, used := "", Following, 0;
    while used < |sessions| && finish == Following
      invariant used <= |sessions|
      invariant finish.GaveUp? <==> MustGiveUp(log, sessions, used, retries)
      invariant finish.Following? <==> GoesOn(log, sessions, used, retries)
      invariant finish.Complete? <==> used > 0 && sessions[used - 1].end == Terminated
      invariant forall i :: 0 <= i < used ==> GoesOn(log, sessions, i, retries)
      invariant retryGetLogStream == retries - BreaksInARow(log, sessions, used)
      invariant finish.Complete? ==> stdout == FinalOutput(parse, log, sessions, used)
      invariant !finish.Complete? ==> Written(log, Furthest(log, sessions, used), sinceTime, stdout)
      decreases |sessions| - used
    {
      retryGetLogStream, sinceTime, stdout, finish :=
        Connect(parse, log, sessions, used, retries, retryGetLogStream, sinceTime, stdout);
      used := used + 1;
    }
    if finish.Complete? {
      FinalIsPrefixIff(parse, log, sessions, used);
    }
  }

  // ----- the unfinished last line

  /** A place where a stream from line w or earlier can be cut when w lines are written. */
  ghost predicate CutOk(log: seq<Entry>, w: nat, p: Place) {
    && p.line <= w <= |log|
    && (if p.line == |log| then p.offset == 0
        else p.offset <= |Rendered(log[p.line])| - (if Finished(log[p.line]) then 1 else 0))
  }

  /**
    What a finished run puts out after the w whole lines, by the place of the cut: a piece of a stamp
    that reads as no time comes out as it is; a piece of the text of the first unwritten line comes out
    with a newline; anything else adds nothing.
   */
  ghost function LastPiece(parse: Parser, log: seq<Entry>, w: nat, p: Place): string
    requires CutOk(log, w, p)
  {
    if p.offset == 0 then ""
    else
      var e := log[p.line];
      if p.offset <= |e.stamp| then if parse(e.stamp[..p.offset]).Some? then "" else e.stamp[..p.offset] + "\n"
      else if p.line < w || p.offset == |e.stamp| + 1 then ""
      else e.text[..p.offset - |e.stamp| - 1] + "\n"
  }

  /** The output is what some first lines of the log say. */
  ghost predicate IsPrefixOf(stdout: string, log: seq<Entry>) {
    exists v: nat :: v <= |log| && stdout == Texts(log, v)
  }

  /**
    A harmless cut: between lines; in a stamp that still reads as a time, or that happens to spell the
    next text; after the space of a line already written; or in an unwritten line just after the space
    or just before the newline.
   */
  ghost predicate HarmlessCut(parse: Parser, log: seq<Entry>, w: nat, p: Place)
    requires CutOk(log, w, p)
  {
    p.offset == 0 ||
    var e := log[p.line];
    if p.offset <= |e.stamp| then parse(e.stamp[..p.offset]).Some? || (w < |log| && e.stamp[..p.offset] == Body(log[w]))
    else
      p.line < w || p.offset == |e.stamp| + 1 || p.offset == |e.stamp| + 1 + |Body(e)|
  }

  lemma TailIsLastPiece(parse: Parser, log: seq<Entry>, w: nat, p: Place, sinceTime: int, successfulWrite: bool)
    requires LogOk(parse, log) && CutOk(log, w, p)
    requires sinceTime == StampAfter(log, w) && (p.line < w ==> !successfulWrite)
    ensures var fragment := if p.line == |log| then "" else Prefix(Rendered(log[p.line]), p.offset);
            TailOutput(parse, fragment, sinceTime, successfulWrite) == LastPiece(parse, log, w, p)
  {
    if p.offset > 0 {
      var e := log[p.line];
      assert LineOk(parse, log, p.line);
      var fragment := Prefix(Rendered(e), p.offset);
      if p.offset <= |e.stamp| {
        assert fragment == e.stamp[..p.offset];
        SplitWithoutSpace(fragment);
      } else {
        var cut := e.(text := e.text[..p.offset - |e.stamp| - 1]);
        assert fragment == Rendered(cut);
        ProcessRendered(parse, cut, sinceTime, successfulWrite);
        assert p.line < w ==> e.time <= sinceTime;
        assert p.line == w > 0 ==> LineOk(parse, log, w - 1);
      }
    }
  }

  ghost predicate Starts(s: string, t: string) {
    |s| <= |t| && t[..|s|] == s
  }

  lemma {:induction false} TextsGrow(log: seq<Entry>, w: nat, v: nat)
    requires w <= v <= |log|
    ensures Starts(Texts(log, w), Texts(log, v))
  {
    if w < v {
      TextsGrow(log, w, v - 1);
    }
  }

  /** Two texts with no newline in them that go on from the same output the same way are the same. */
  lemma SameLine(sofar: string, a: string, b: string)
    requires '\n' !in a && '\n' !in b && Starts(sofar + (b + "\n"), sofar + (a + "\n"))
    ensures a == b
  {
    var out, n := sofar + (a + "\n"), |sofar|;
    assert (sofar + (b + "\n"))[n + |b|] == '\n';
    assert out[n + |b|] == '\n';
    assert |a| == |b|;
    assert out[n..n + |a|] == a && (sofar + (b + "\n"))[n..n + |b|] == b;
  }

  lemma NextIs(log: seq<Entry>, w: nat, v: nat, msg: string)
    requires w < v <= |log| && '\n' !in msg && '\n' !in Body(log[w]) && Texts(log, v) == Texts(log, w) + (msg + "\n")
    ensures msg == Body(log[w])
  {
    var sofar, b := Texts(log, w), Body(log[w]);
    assert Texts(log, w + 1) == sofar + (b + "\n");
    TextsGrow(log, w + 1, v);
    assert Starts(sofar + (b + "\n"), sofar + (msg + "\n"));
    SameLine(sofar, msg, b);
  }

  /** A line that is neither empty nor broken continues the output if and only if it is the next one. */
  lemma PieceContinuesIff(log: seq<Entry>, w: nat, msg: string)
    requires w <= |log| && '\n' !in msg && (w < |log| ==> '\n' !in Body(log[w]))
    ensures IsPrefixOf(Texts(log, w) + (msg + "\n"), log) <==> w < |log| && msg == Body(log[w])
  {
    var out := Texts(log, w) + (msg + "\n");
    if w < |log| && msg == Body(log[w]) {
      assert out == Texts(log, w + 1);
    }
    if v: nat :| v <= |log| && out == Texts(log, v) {
      if v <= w {
        TextsGrow(log, v, w);
      } else {
        NextIs(log, w, v, msg);
      }
    }
  }

  lemma PrefixIffHarmless(parse: Parser, log: seq<Entry>, w: nat, p: Place)
    requires LogOk(parse, log) && CutOk(log, w, p)
    ensures IsPrefixOf(Texts(log, w) + LastPiece(parse, log, w, p), log) <==> HarmlessCut(parse, log, w, p)
  {
    var piece := LastPiece(parse, log, w, p);
    if piece == "" {
      assert Texts(log, w) + piece == Texts(log, w);
    } else {
      var e := log[p.line];
      var msg := if p.offset <= |e.stamp| then e.stamp[..p.offset] else e.text[..p.offset - |e.stamp| - 1];
      assert LineOk(parse, log, p.line) && (w < |log| ==> LineOk(parse, log, w));
      PieceContinuesIff(log, w, msg);
    }
  }

  /** What a run has put out when it finishes with the n-th session. */
  ghost function FinalOutput(parse: Parser, log: seq<Entry>, sessions: seq<Session>, n: nat): string
    requires 0 < n <= |sessions|
  {
    var w := Furthest(log, sessions, n);
    Texts(log, w) + LastPiece(parse, log, w, CutAt(log, sessions, n))
  }

  /** The n-th session was cut at a harmless place. */
  ghost predicate CutHarmlessly(parse: Parser, log: seq<Entry>, sessions: seq<Session>, n: nat)
    requires 0 < n <= |sessions|
  {
    HarmlessCut(parse, log, Furthest(log, sessions, n), CutAt(log, sessions, n))
  }

  lemma FinalIsPrefixIff(parse: Parser, log: seq<Entry>, sessions: seq<Session>, n: nat)
    requires LogOk(parse, log) && 0 < n <= |sessions|
    ensures IsPrefixOf(FinalOutput(parse, log, sessions, n), log) <==> CutHarmlessly(parse, log, sessions, n)
  {
    PrefixIffHarmless(parse, log, Furthest(log, sessions, n), CutAt(log, sessions, n));
  }

  lemma RunFinishes(parse: Parser, log: seq<Entry>, sessions: seq<Session>, n: nat,
                    fragment: string, sinceTime: int, successfulWrite: bool, stdout: string)
    requires LogOk(parse, log) && 0 < n <= |sessions|
    requires Reader(fragment, sinceTime, successfulWrite, stdout) ==
             ReaderAtCut(log, Furthest(log, sessions, n - 1), CutAt(log, sessions, n))
    ensures stdout + TailOutput(parse, fragment, sinceTime, successfulWrite) == FinalOutput(parse, log, sessions, n)
  {
    TailIsLastPiece(parse, log, Furthest(log, sessions, n), CutAt(log, sessions, n), sinceTime, successfulWrite);
  }

  lemma {:induction false} UncutPlace(parse: Parser, log: seq<Entry>, i: nat, bytes: nat)
    requires LogOk(parse, log) && i <= |log| && bytes >= |Stream(log, i)|
    ensures Locate(log, i, bytes) ==
            if i == |log| || Finished(log[|log| - 1]) then Place(|log|, 0)
            else Place(|log| - 1, |Rendered(log[|log| - 1])|)
    decreases |log| - i
  {
    assert i < |log| ==> LineOk(parse, log, i);
    if i < |log| && Finished(log[i]) {
      UncutPlace(parse, log, i + 1, bytes - |Rendered(log[i])|);
    }
  }

  lemma UncutPiece(parse: Parser, log: seq<Entry>, w: nat)
    requires |log| - 1 <= w <= |log| && log != []
    requires !Finished(log[|log| - 1]) && log[|log| - 1].text != ""
    ensures Texts(log, w) + LastPiece(parse, log, w, Place(|log| - 1, |Rendered(log[|log| - 1])|)) == Texts(log, |log|)
  {
    var e := log[|log| - 1];
    assert e.text[..|e.text|] == e.text;
  }

  /**
    If the last connection delivered everything to the end, a finished run has written everything; a
    last line without text and newline counts for nothing.
   */
  lemma UncutIsWhole(parse: Parser, log: seq<Entry>, sessions: seq<Session>, n: nat)
    requires LogOk(parse, log) && log != [] && log[|log| - 1].text != "" && 0 < n <= |sessions|
    requires sessions[n - 1].bytes >= |Stream(log, Back(Furthest(log, sessions, n - 1), sessions[n - 1].overlap))|
    ensures FinalOutput(parse, log, sessions, n) == Texts(log, |log|)
  {
    UncutPlace(parse, log, Back(Furthest(log, sessions, n - 1), sessions[n - 1].overlap), sessions[n - 1].bytes);
    if !Finished(log[|log| - 1]) {
      UncutPiece(parse, log, Furthest(log, sessions, n));
    }
  }

  /**
    The failing cut: everything is written, the last connection replays a line and is cut inside its
    stamp, and the piece of the stamp is put out as if it were text.
   */
  lemma StampCutIsWritten(parse: Parser, log: seq<Entry>, line: nat, k: nat)
    requires LogOk(parse, log) && line < |log| && 0 < k < |log[line].stamp| && parse(log[line].stamp[..k]).None?
    ensures LastPiece(parse, log, |log|, Place(line, k)) == log[line].stamp[..k] + "\n"
    ensures !IsPrefixOf(Texts(log, |log|) + LastPiece(parse, log, |log|, Place(line, k)), log)
  {
    PrefixIffHarmless(parse, log, |log|, Place(line, k));
  }

  /** The connections of such a run: the one line is delivered, and then replayed up to the third byte of its stamp. */
  const STAMP_CUT: seq<Session> := [Session(0, 10, StillRunning), Session(1, 3, Terminated)]

  ghost function OneLine(): seq<Entry> {
    [Entry("2024T", 1, "abc\n")]
  }

  lemma OneLineIs(parse: Parser)
    requires parse("2024T") == Some(1)
    ensures LogOk(parse, OneLine()) && |Rendered(OneLine()[0])| == 10 && Finished(OneLine()[0])
    ensures Body(OneLine()[0]) == "abc" && Texts(OneLine(), 1) == "abc\n"
  {
    assert Texts(OneLine(), 0) == "";
  }

  lemma FirstSession(parse: Parser)
    requires parse("2024T") == Some(1)
    ensures Furthest(OneLine(), STAMP_CUT, 1) == 1
  {
    OneLineIs(parse);
    assert Furthest(OneLine(), STAMP_CUT, 0) == 0;
    assert Locate(OneLine(), 0, 10) == Place(1, 0);
  }

  lemma SecondSession(parse: Parser)
    requires parse("2024T") == Some(1)
    ensures CutAt(OneLine(), STAMP_CUT, 2) == Place(0, 3) && Furthest(OneLine(), STAMP_CUT, 2) == 1
  {
    OneLineIs(parse);
    FirstSession(parse);
    assert Locate(OneLine(), 0, 3) == Place(0, 3);
  }

  lemma StampCutPiece(parse: Parser)
    requires parse("2024T") == Some(1) && parse("202") == None
    ensures LastPiece(parse, OneLine(), 1, Place(0, 3)) == "202\n"
  {
    assert OneLine()[0].stamp[..3] == "202";
  }

  /** Such a run, put to the reader: its output is no prefix of what the log says. */
  method StampCutRun(parse: Parser, retries: int) returns (stdout: string)
    requires parse("2024T") == Some(1) && parse("202") == None
    ensures stdout == "abc\n202\n" && !IsPrefixOf(stdout, OneLine())
  {
    var log := [Entry("2024T", 1, "abc\n")];
    OneLineIs(parse);
    SecondSession(parse);
    StampCutPiece(parse);
    StampCutIsWritten(parse, log, 0, 3);
    var finish, used;
    stdout, finish, used := KubeLoggingWithReconnect(parse, log, STAMP_CUT, retries);
    assert used == 2;
  }
}
