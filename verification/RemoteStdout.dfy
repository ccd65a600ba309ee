/**
  Mirroring the stdout of a remote work unit: the remote node serves its file from a start position,
  the local node appends what arrives and, after every disconnect, resumes at the size of its copy.
 */
module RemoteStdout {
  import opened Bytes

  /** The content of the remote stdout file at every moment. */
  type File = nat -> seq<Byte>

  ghost predicate Grown(file: File, i: nat, j: nat) {
    file(i) <= file(j)
  }

  ghost predicate AppendOnly(file: File) {
    forall i: nat, j: nat :: i <= j ==> Grown(file, i, j)
  }

  datatype Status = Status(complete: bool, stdoutSize: nat)

  /** The read buffer of the serving side, utils.NormalBufferSize. */
  const NORMAL_BUFFER_SIZE: nat := 65536

  // ----- the serving side

  /**
    One turn of the serving loop: when it reads, how many bytes the read may return at most, and the
    unit's status after it.
   */
  datatype Turn = Turn(time: nat, limit: nat, status: Status)

  ghost predicate Ordered(turns: seq<Turn>, since: nat) {
    && (forall i :: 0 <= i < |turns| ==> since <= turns[i].time)
    && (forall i, j :: 0 <= i <= j < |turns| ==> turns[i].time <= turns[j].time)
  }

  function ReadAt(content: seq<Byte>, pos: nat, limit: nat): seq<Byte> {
    if pos >= |content| then []
    else if |content| - pos <= limit then content[pos..]
    else content[pos..pos + limit]
  }

  /** When the last of the first n turns was taken. */
  function LastTime(turns: seq<Turn>, n: nat, since: nat): nat
    requires n <= |turns|
  {
    if n == 0 then since else turns[n - 1].time
  }

  /** The bytes sent so far are a contiguous piece of the content from the start position on. */
  ghost predicate Piece(content: seq<Byte>, startPos: nat, sent: seq<Byte>) {
    sent == [] || (startPos + |sent| <= |content| && sent == content[startPos..startPos + |sent|])
  }

  lemma PieceOfLonger(content: seq<Byte>, longer: seq<Byte>, startPos: nat, sent: seq<Byte>)
    requires content <= longer && Piece(content, startPos, sent)
    ensures Piece(longer, startPos, sent)
  {
  }

  lemma ReadExtendsPiece(content: seq<Byte>, startPos: nat, sent: seq<Byte>, limit: nat)
    requires Piece(content, startPos, sent)
    ensures Piece(content, startPos, sent + ReadAt(content, startPos + |sent|, limit))
  {
  }

  /** The read that filePos allows in a turn. */
  function ChunkAt(content: seq<Byte>, pos: nat, turn: Turn): seq<Byte> {
    ReadAt(content, pos, if turn.limit < NORMAL_BUFFER_SIZE then turn.limit else NORMAL_BUFFER_SIZE)
  }

  function Min(a: nat, b: nat): nat {
    if a < b then a else b
  }

  /** How many bytes a turn reads: as many as its read returns, the buffer holds and the file has left. */
  function ReadLength(size: nat, pos: nat, limit: nat): nat {
    if pos < size then Min(Min(limit, 65536), size - pos) else 0
  }

  /** A turn reads exactly the bytes of the file at the position, as many as it can. */
  lemma ChunkIs(content: seq<Byte>, pos: nat, turn: Turn)
    ensures var k := ReadLength(|content|, pos, turn.limit);
            ChunkAt(content, pos, turn) == if k == 0 then [] else content[pos..pos + k]
  {
  }

  /** The stop rule, looked at when a read finds the end of the file. */
  predicate Closes(content: seq<Byte>, pos: nat, turn: Turn) {
    pos >= |content| && turn.status.complete && pos >= turn.status.stdoutSize
  }

  /** Everything served in the first n turns. */
  function Served(file: File, startPos: nat, turns: seq<Turn>, n: nat): seq<Byte>
    requires n <= |turns|
  {
    if n == 0 then []
    else
      var sent := Served(file, startPos, turns, n - 1);
      sent + ChunkAt(file(turns[n - 1].time), startPos + |sent|, turns[n - 1])
  }

  lemma TurnExtendsPiece(earlier: seq<Byte>, content: seq<Byte>, startPos: nat, sent: seq<Byte>, turn: Turn)
    requires earlier <= content && Piece(earlier, startPos, sent)
    ensures Piece(content, startPos, sent + ChunkAt(content, startPos + |sent|, turn))
  {
    PieceOfLonger(earlier, content, startPos, sent);
    var limit := if turn.limit < NORMAL_BUFFER_SIZE then turn.limit else NORMAL_BUFFER_SIZE;
    ReadExtendsPiece(content, startPos, sent, limit);
  }

  /** The bytes served are a contiguous piece of the file as it was last read. */
  lemma {:induction false} ServedIsPiece(file: File, startPos: nat, turns: seq<Turn>, n: nat, since: nat)
    requires AppendOnly(file) && Ordered(turns, since) && n <= |turns|
    ensures Piece(file(LastTime(turns, n, since)), startPos, Served(file, startPos, turns, n))
  {
    if n > 0 {
      ServedIsPiece(file, startPos, turns, n - 1, since);
      var earlier, later := LastTime(turns, n - 1, since), turns[n - 1].time;
      assert Grown(file, earlier, later);
      TurnExtendsPiece(file(earlier), file(later), startPos, Served(file, startPos, turns, n - 1), turns[n - 1]);
    }
  }

  /** The n-th turn reads nothing and closes the stream by the stop rule. */
  ghost predicate ClosesAt(file: File, startPos: nat, turns: seq<Turn>, n: nat)
    requires n <= |turns|
  {
    && n > 0 && |Served(file, startPos, turns, n)| == |Served(file, startPos, turns, n - 1)|
    && Closes(file(turns[n - 1].time), startPos + |Served(file, startPos, turns, n)|, turns[n - 1])
  }

  /** Serving ends after n turns: the n-th is the first that closes the stream, or it was cut off there. */
  ghost predicate EndsAfter(file: File, startPos: nat, turns: seq<Turn>, n: nat) {
    && n <= |turns|
    && (forall i :: 0 <= i < n ==> !ClosesAt(file, startPos, turns, i))
    && (n == |turns| || ClosesAt(file, startPos, turns, n))
  }

  ghost predicate IsServed(file: File, startPos: nat, turns: seq<Turn>, n: nat, sent: seq<Byte>) {
    n <= |turns| && sent == Served(file, startPos, turns, n)
  }

  /**
    One read: exactly the bytes of the file at the position, as many as it can; the stop rule if
    there are none left.
   */
  method ReadOnce(content: seq<Byte>, pos: nat, turn: Turn) returns (chunk: seq<Byte>, closed: bool)
    ensures var k := ReadLength(|content|, pos, turn.limit);
            chunk == if k == 0 then [] else content[pos..pos + k]
    ensures closed <==> pos >= |content| && turn.status.complete && pos >= turn.status.stdoutSize
    ensures chunk == ChunkAt(content, pos, turn) && (closed <==> |chunk| == 0 && Closes(content, pos + |chunk|, turn))
  {
    ChunkIs(content, pos, turn);
    chunk := ChunkAt(content, pos, turn);
    closed := |chunk| == 0 && Closes(content, pos + |chunk|, turn);
  }

  /** One turn of the loop. */
  method ServeTurn(file: File, startPos: nat, turns: seq<Turn>, n: nat, sent0: seq<Byte>)
    returns (sent: seq<Byte>, closed: bool)
    requires n < |turns| && IsServed(file, startPos, turns, n, sent0)
    ensures IsServed(file, startPos, turns, n + 1, sent)
    ensures closed <==> ClosesAt(file, startPos, turns, n + 1)
  {
    var chunk;
    chunk, closed := ReadOnce(file(turns[n].time), startPos + |sent0|, turns[n]);
    sent := sent0 + chunk;
  }

  /** When the stream closes, everything the file held at the last read has been sent, and so has the recorded size. */
  lemma ClosedIsAll(file: File, startPos: nat, turns: seq<Turn>, n: nat)
    requires n <= |turns| && ClosesAt(file, startPos, turns, n)
    ensures n > 0 && turns[n - 1].status.complete
    ensures startPos + |Served(file, startPos, turns, n)| >= turns[n - 1].status.stdoutSize
    ensures startPos + |Served(file, startPos, turns, n)| >= |file(turns[n - 1].time)|
  {
  }

  /**
    The loop of GetResults, cut off after the given turns: every turn sends all that its read returned,
    and the stream closes with the first turn that meets the stop rule.
   */
  method GetResults(file: File, startPos: nat, turns: seq<Turn>) returns (sent: seq<Byte>, used: nat, closed: bool)
    ensures EndsAfter(file, startPos, turns, used)
    ensures IsServed(file, startPos, turns, used, sent)
    ensures closed <==> ClosesAt(file, startPos, turns, used)
    ensures closed ==>
              && used > 0 && turns[used - 1].status.complete && startPos + |sent| >= turns[used - 1].status.stdoutSize
              && startPos + |sent| >= |file(turns[used - 1].time)|
  {
    sent, used, closed := [], 0, false;
    while used < |turns| && !closed
      invariant IsServed(file, startPos, turns, used, sent)
      invariant forall i :: 0 <= i < used ==> !ClosesAt(file, startPos, turns, i)
      invariant closed <==> ClosesAt(file, startPos, turns, used)
      decreases |turns| - used
    {
      sent, closed := ServeTurn(file, startPos, turns, used, sent);
      used := used + 1;
    }
    if closed {
      ClosedIsAll(file, startPos, turns, used);
    }
  }

  // ----- progress

  /** The file is the same in all the turns, and every read can return something. */
  ghost predicate Still(file: File, turns: seq<Turn>, content: seq<Byte>) {
    forall i :: 0 <= i < |turns| ==> file(turns[i].time) == content && turns[i].limit > 0
  }

  /** A piece of the content from the start position on, of at least n bytes unless the content ends first. */
  ghost predicate Covers(content: seq<Byte>, startPos: nat, sent: seq<Byte>, n: nat) {
    && startPos + |sent| <= |content| && sent == content[startPos..startPos + |sent|]
    && |sent| >= Min(n, |content| - startPos)
  }

  lemma CoversNone(content: seq<Byte>, startPos: nat)
    requires startPos <= |content|
    ensures Covers(content, startPos, [], 0)
  {
  }

  lemma CoversMore(content: seq<Byte>, startPos: nat, sent: seq<Byte>, turn: Turn, n: nat)
    requires Covers(content, startPos, sent, n) && turn.limit > 0
    ensures Covers(content, startPos, sent + ChunkAt(content, startPos + |sent|, turn), n + 1)
  {
    ChunkIs(content, startPos + |sent|, turn);
  }

  ghost predicate ServedCovers(file: File, startPos: nat, turns: seq<Turn>, n: nat, content: seq<Byte>) {
    n <= |turns| && Covers(content, startPos, Served(file, startPos, turns, n), n)
  }

  lemma ServedGrows(file: File, startPos: nat, turns: seq<Turn>, n: nat, content: seq<Byte>)
    requires Still(file, turns, content) && n < |turns| && ServedCovers(file, startPos, turns, n, content)
    ensures ServedCovers(file, startPos, turns, n + 1, content)
  {
    CoversMore(content, startPos, Served(file, startPos, turns, n), turns[n], n);
  }

  /** Every turn on a file that has stopped growing gets at least one byte further, until all is served. */
  lemma {:induction false} AllServedGrows(file: File, startPos: nat, turns: seq<Turn>, n: nat, content: seq<Byte>)
    requires Still(file, turns, content) && startPos <= |content| && n <= |turns|
    ensures ServedCovers(file, startPos, turns, n, content)
  {
    if n == 0 {
      CoversNone(content, startPos);
    } else {
      AllServedGrows(file, startPos, turns, n - 1, content);
      ServedGrows(file, startPos, turns, n - 1, content);
    }
  }

  /**
    Once a file has stopped growing, enough turns serve everything from the start position on, and so
    does a stream that closes.
   */
  lemma EnoughTurnsServeAll(file: File, startPos: nat, turns: seq<Turn>, n: nat, content: seq<Byte>)
    requires Still(file, turns, content) && startPos <= |content| && EndsAfter(file, startPos, turns, n)
    requires |turns| >= |content| - startPos
    ensures Served(file, startPos, turns, n) == content[startPos..]
  {
    AllServedGrows(file, startPos, turns, n, content);
  }

  // ----- the mirroring side

  /** How an attempt to fetch the rest goes: the stream may be cut after any number of bytes. */
  datatype Attempt =
    | NoConnection
    | RequestFailed
    | Streamed(turns: seq<Turn>, arrived: nat)

  /**
    One turn of the monitor: when it begins and ends, whether it was cancelled while it slept, the
    status it loads and its attempt.
   */
  datatype Round = Round(begins: nat, ends: nat, cancelled: bool, status: Status, attempt: Attempt)

  ghost predicate RoundOk(r: Round) {
    && r.begins <= r.ends
    && (r.attempt.Streamed? ==>
          && Ordered(r.attempt.turns, r.begins)
          && forall i :: 0 <= i < |r.attempt.turns| ==> r.attempt.turns[i].time <= r.ends)
  }

  ghost predicate RoundsOk(rounds: seq<Round>) {
    && (forall i :: 0 <= i < |rounds| ==> RoundOk(rounds[i]))
    && (forall i, j :: 0 <= i < j < |rounds| ==> rounds[i].ends <= rounds[j].begins)
  }

  datatype Stop = Running | Cancelled | Disconnected | Finished(recorded: nat)

  /** The local file after it was asked for the rest and `arrived` bytes of the answer came through. */
  function Extended(local: seq<Byte>, sent: seq<Byte>, arrived: nat): seq<Byte> {
    local + if arrived < |sent| then sent[..arrived] else sent
  }

  ghost predicate Chain(a: seq<Byte>, b: seq<Byte>, c: seq<Byte>) {
    a <= b <= c
  }

  /** Appending what was served from the end of a prefix gives a longer prefix. */
  lemma ServedExtends(file: File, local: seq<Byte>, turns: seq<Turn>, n: nat, arrived: nat, since: nat, now: nat)
    requires AppendOnly(file) && Ordered(turns, since) && since <= now && n <= |turns|
    requires forall i :: 0 <= i < |turns| ==> turns[i].time <= now
    requires local <= file(since)
    ensures Chain(local, Extended(local, Served(file, |local|, turns, n), arrived), file(now))
  {
    ServedIsPiece(file, |local|, turns, n, since);
    PieceExtends(file, local, since, LastTime(turns, n, since), now, Served(file, |local|, turns, n), arrived);
  }

  lemma PieceExtends(file: File, local: seq<Byte>, i: nat, j: nat, k: nat, sent: seq<Byte>, arrived: nat)
    requires AppendOnly(file) && i <= j <= k
    requires local <= file(i) && Piece(file(j), |local|, sent)
    ensures Chain(local, Extended(local, sent, arrived), file(k))
  {
    assert Grown(file, i, j) && Grown(file, j, k);
    var r := Extended(local, sent, arrived);
    assert sent != [] ==> r == file(j)[..|r|];
  }

  /** Whether a turn that finds the local file at this size stops the monitor, and how. */
  ghost predicate StopIs(size: nat, r: Round, stop: Stop) {
    && (stop.Cancelled? <==> r.cancelled)
    && (stop.Finished? <==> !r.cancelled && r.status.complete && size >= r.status.stdoutSize)
    && (stop.Finished? ==> stop.recorded == r.status.stdoutSize)
    && (stop.Disconnected? <==> !r.cancelled && size < r.status.stdoutSize && r.attempt.NoConnection?)
  }

  /**
    What a turn of the monitor does to the local file: nothing, or it appends exactly the part of
    the answer that arrived.
   */
  ghost predicate RoundStep(file: File, before: seq<Byte>, after: seq<Byte>, r: Round) {
    if r.cancelled || |before| >= r.status.stdoutSize || !r.attempt.Streamed? then after == before
    else exists n: nat :: EndsAfter(file, |before|, r.attempt.turns, n)
                     && after == Extended(before, Served(file, |before|, r.attempt.turns, n), r.attempt.arrived)
  }

  /** The local file before and after every turn. */
  ghost predicate HistoryOk(file: File, history: seq<seq<Byte>>, rounds: seq<Round>, used: nat) {
    && |history| == used + 1 && used <= |rounds|
    && forall i :: 0 <= i < used ==> RoundStep(file, history[i], history[i + 1], rounds[i])
  }

  /** The monitor stops as the last of the turns says, and no earlier turn says that it should. */
  ghost predicate StopsAt(history: seq<seq<Byte>>, rounds: seq<Round>, used: nat, stop: Stop) {
    && |history| == used + 1 && used <= |rounds|
    && (if used == 0 then stop == Running else StopIs(|history[used - 1]|, rounds[used - 1], stop))
    && forall i :: 0 <= i < used - 1 ==> StopIs(|history[i]|, rounds[i], Running)
  }

  lemma HistoryGrows(file: File, history: seq<seq<Byte>>, rounds: seq<Round>, used: nat, local: seq<Byte>)
    requires HistoryOk(file, history, rounds, used) && used < |rounds|
    requires RoundStep(file, history[used], local, rounds[used])
    ensures HistoryOk(file, history + [local], rounds, used + 1)
  {
    var longer := history + [local];
    forall i | 0 <= i < used + 1
      ensures RoundStep(file, longer[i], longer[i + 1], rounds[i])
    {
      assert i < used ==> RoundStep(file, history[i], history[i + 1], rounds[i]);
    }
  }

  /**
    The loop of monitorRemoteStdout over any pattern of disconnects.  The local file is at every
    moment a prefix of the remote one, it never shrinks, all that arrives is kept, and when the
    monitor stops because the unit is complete it holds at least the recorded number of bytes.
   */
  method MonitorRemoteStdout(file: File, local0: seq<Byte>, rounds: seq<Round>, start: nat)
    returns (local: seq<Byte>, stop: Stop, used: nat, ghost history: seq<seq<Byte>>)
    requires AppendOnly(file) && RoundsOk(rounds) && local0 <= file(start)
    requires rounds != [] ==> start <= rounds[0].begins
    ensures used <= |rounds|
    ensures local0 <= local <= file(if used == 0 then start else rounds[used - 1].ends)
    ensures stop.Finished? ==>
              used > 0 && rounds[used - 1].status == Status(true, stop.recorded) && |local| >= stop.recorded
    ensures stop.Running? ==> used == |rounds|
    ensures HistoryOk(file, history, rounds, used) && history[0] == local0 && history[used] == local
    ensures StopsAt(history, rounds, used, stop)
  {
    local, stop, used, history := local0, Running, 0, [local0];
    ghost var now := start;
    while used < |rounds| && stop.Running?
      invariant used <= |rounds|
      invariant now == if used == 0 then start else rounds[used - 1].ends
      invariant local0 <= local <= file(now)
      invariant used < |rounds| ==> now <= rounds[used].begins
      invariant stop.Finished? ==>
                  used > 0 && rounds[used - 1].status == Status(true, stop.recorded) && |local| >= stop.recorded
      invariant StopsAt(history, rounds, used, stop)
      invariant HistoryOk(file, history, rounds, used) && history[0] == local0 && history[used] == local
      decreases |rounds| - used
    {
      var r := rounds[used];
      assert RoundOk(r) && Grown(file, now, r.begins) && Grown(file, r.begins, r.ends);
      local, stop := MonitorRound(file, local, r);
      HistoryGrows(file, history, rounds, used, local);
      history := history + [local];
      used := used + 1;
      now := r.ends;
    }
  }

  /** One turn of the monitor. */
  method MonitorRound(file: File, local0: seq<Byte>, r: Round) returns (local: seq<Byte>, stop: Stop)
    requires AppendOnly(file) && RoundOk(r) && local0 <= file(r.begins)
    ensures local0 <= local <= file(r.ends)
    ensures StopIs(|local0|, r, stop) && (!stop.Running? ==> local == local0)
    ensures RoundStep(file, local0, local, r)
  {
    local, stop := local0, Running;
    assert Grown(file, r.begins, r.ends);
    if r.cancelled {
      return local0, Cancelled;
    }
    var diskStdoutSize, remoteStdoutSize := |local|, r.status.stdoutSize;
    if r.status.complete && diskStdoutSize >= remoteStdoutSize {
      stop := Finished(remoteStdoutSize);
    } else if diskStdoutSize < remoteStdoutSize {
      match r.attempt
      case NoConnection => stop := Disconnected;
      case RequestFailed =>
      case Streamed(turns, arrived) =>
        var sent, n, closed := GetResults(file, diskStdoutSize, turns);
        ServedExtends(file, local0, turns, n, arrived, r.begins, r.ends);
        local := Extended(local0, sent, arrived);
    }
  }

  /** When the recorded size is the final size of the remote file, finishing means holding all of it. */
  lemma FinishedIsWhole(file: File, local: seq<Byte>, now: nat, recorded: nat)
    requires AppendOnly(file) && local <= file(now) && |local| >= recorded
    requires forall t :: t >= now ==> |file(t)| == recorded
    ensures forall t :: t >= now ==> local == file(t)
  {
    forall t | t >= now
      ensures local == file(t)
    {
      assert Grown(file, now, t);
    }
  }

  /**
    Two rounds against a unit that is complete: one that streams with enough turns, and one that
    finds nothing more to do.
   */
  function LastRounds(content: seq<Byte>): seq<Round> {
    var status := Status(true, |content|);
    [Round(0, 0, false, status, Streamed(seq(|content|, i => Turn(0, 65536, status)), |content|)),
     Round(0, 0, false, status, RequestFailed)]
  }

  /** From any prefix there is a pattern of rounds in which the mirror finishes with the whole file. */
  method MirrorCompletes(content: seq<Byte>, local0: seq<Byte>) returns (local: seq<Byte>, stop: Stop)
    requires local0 <= content
    ensures local == content && stop == Finished(|content|)
  {
    var file, rounds := (t: nat) => content, LastRounds(content);
    assert RoundOk(rounds[0]) && RoundOk(rounds[1]);
    var used;
    ghost var history;
    local, stop, used, history := MonitorRemoteStdout(file, local0, rounds, 0);
    if |local0| < |content| {
      FirstRoundServes(file, content, history[0], history[1]);
    }
  }

  lemma FirstRoundServes(file: File, content: seq<Byte>, before: seq<Byte>, after: seq<Byte>)
    requires before <= content && |before| < |content| && file(0) == content
    requires RoundStep(file, before, after, LastRounds(content)[0])
    ensures after == content
  {
    var r := LastRounds(content)[0];
    var turns := r.attempt.turns;
    var n: nat :| EndsAfter(file, |before|, turns, n)
      && after == Extended(before, Served(file, |before|, turns, n), r.attempt.arrived);
    EnoughTurnsServeAll(file, |before|, turns, n, content);
  }
}
