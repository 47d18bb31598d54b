/**
  The AppendCommands call (src/ledger.rs, append_commands): a client stream of commands for one quote,
  appended one by one until the stream ends or something fails.
*/
module Stream {
  import opened Wrappers
  import opened Domain
  import opened Tables
  import opened Appending

  const MAX_ID_LEN := 128

  /** What the server sees next on the stream; the end of the frames is the client's half-close. */
  datatype Frame =
    | Message(quoteId: QuoteId, clientCommandId: CommandId, command: Option<Command>)
    | TransportError
    | IdleTimeout

  datatype Response = Response(lastCommittedSeq: nat, committed: seq<StoredEvent>)

  predicate IdentifierChar(c: char) {
    'a' <= c <= 'z' || 'A' <= c <= 'Z' || '0' <= c <= '9' || c in "-_:."
  }

  predicate ValidIdentifier(s: string) {
    1 <= |s| <= MAX_ID_LEN && forall i :: 0 <= i < |s| ==> IdentifierChar(s[i])
  }

  function TrimStart(s: string): string {
    if s != [] && IsWhitespace(s[0]) then TrimStart(s[1..]) else s
  }

  function TrimEnd(s: string): string {
    if s != [] && IsWhitespace(s[|s| - 1]) then TrimEnd(s[..|s| - 1]) else s
  }

  function Trim(s: string): string {
    TrimEnd(TrimStart(s))
  }

  /** A letter or digit of ASCII, or one of the four signs that an identifier may contain. */
  predicate AsciiIdentifierCode(code: int) {
    || 0x30 <= code <= 0x39 || 0x41 <= code <= 0x5A || 0x61 <= code <= 0x7A
    || code == 0x2D || code == 0x5F || code == 0x3A || code == 0x2E
  }

  /**
    The four checks of validate_identifier, one after the other (not blank, at most 128 long, equal to its
    own trimmed form, permitted characters only), pass together exactly for the valid identifiers.
  */
  lemma FourChecksAreOne(s: string)
    ensures ValidIdentifier(s) <==>
            && Trim(s) != []
            && |s| <= 128
            && s == Trim(s)
            && forall i :: 0 <= i < |s| ==> AsciiIdentifierCode(s[i] as int)
  {
    if s != [] && forall i :: 0 <= i < |s| ==> AsciiIdentifierCode(s[i] as int) {
      assert AsciiIdentifierCode(s[0] as int) && AsciiIdentifierCode(s[|s| - 1] as int);
    }
    if ValidIdentifier(s) {
      assert IdentifierChar(s[0]) && IdentifierChar(s[|s| - 1]);
    }
    forall i | 0 <= i < |s|
      ensures IdentifierChar(s[i]) <==> AsciiIdentifierCode(s[i] as int)
    {
      CharOrCode(s[i]);
    }
  }

  lemma CharOrCode(c: char)
    ensures IdentifierChar(c) <==> AsciiIdentifierCode(c as int)
  {
    assert "-_:." == ['-', '_', ':', '.'];
    if c in "-_:." {
      assert c == '-' || c == '_' || c == ':' || c == '.';
    }
    assert '-' in "-_:." && '_' in "-_:." && ':' in "-_:." && '.' in "-_:." by {
      assert "-_:."[0] == '-' && "-_:."[1] == '_' && "-_:."[2] == ':' && "-_:."[3] == '.';
    }
  }

  /** The local variables of the call, the tables, and the status it has already failed with, if any. */
  datatype Progress = Progress(
    tables: Tables, quoteId: Option<QuoteId>, commandCount: nat, lastCommittedSeq: nat,
    allCommitted: seq<StoredEvent>, failure: Option<Status>)

  function Start(t: Tables): Progress {
    Progress(t, None, 0, 0, [], None)
  }

  function Receive(p: Progress, f: Frame, maxCommands: nat): Progress {
    if p.failure.Some? then p
    else
      match f
      case TransportError => p.(failure := Some(TransportFailure))
      case IdleTimeout => p.(failure := Some(DeadlineExceeded))
      case Message(q, cid, command) =>
        var p := p.(commandCount := p.commandCount + 1);
        if p.commandCount > maxCommands then p.(failure := Some(ResourceExhausted))
        else if !ValidIdentifier(cid) || !ValidIdentifier(q) then p.(failure := Some(InvalidArgument))
        else if p.quoteId.Some? && p.quoteId.value != q then p.(failure := Some(InvalidArgument))
        else Appended(p.(quoteId := Some(q)), Request(q, cid, command))
  }

  function Appended(p: Progress, r: Request): Progress {
    var (t, result) := AppendOne(p.tables, r);
    match result
    case Err(status) => p.(tables := t, failure := Some(status))
    case Ok(stored) =>
      p.(tables := t,
         lastCommittedSeq := if stored == [] then p.lastCommittedSeq else stored[|stored| - 1].seqNo,
         allCommitted := p.allCommitted + stored)
  }

  function RunStream(t: Tables, frames: seq<Frame>, maxCommands: nat): Progress {
    if frames == [] then Start(t)
    else Receive(RunStream(t, frames[..|frames| - 1], maxCommands), frames[|frames| - 1], maxCommands)
  }

  function Reply(p: Progress): Result<Response, Status> {
    if p.failure.Some? then Err(p.failure.value)
    else if p.quoteId.None? then Err(InvalidArgument)
    else Ok(Response(p.lastCommittedSeq, p.allCommitted))
  }

  // ---------------------------------------------------------------- what a stream keeps

  lemma ReceiveKeepsLedger(p: Progress, f: Frame, maxCommands: nat)
    requires Ledger(p.tables)
    ensures Ledger(Receive(p, f, maxCommands).tables)
    ensures Receive(p, f, maxCommands).failure.Some? ==> Receive(p, f, maxCommands).tables == p.tables
    ensures forall r: Request, k :: Settled(p.tables, r, k) ==> Settled(Receive(p, f, maxCommands).tables, r, k)
  {
    hide AppendOne, Settled, Ledger;
    if f.Message? {
      AppendOneKeepsLedger(p.tables, Request(f.quoteId, f.clientCommandId, f.command));
    }
  }

  /** From frame j on to frame k nothing settled is unsettled, and after a failure nothing changes. */
  lemma {:induction false} StreamKeepsLedger(t: Tables, frames: seq<Frame>, maxCommands: nat, j: nat, k: nat)
    requires Ledger(t) && j <= k <= |frames|
    ensures
      var pj, pk := RunStream(t, frames[..j], maxCommands), RunStream(t, frames[..k], maxCommands);
      && Ledger(pj.tables) && Ledger(pk.tables)
      && (forall r: Request, n :: Settled(pj.tables, r, n) ==> Settled(pk.tables, r, n))
      && (pj.failure.Some? ==> pk == pj)
    decreases k
  {
    hide Ledger, Settled, Receive;
    if k > 0 {
      assert frames[..k][..k - 1] == frames[..k - 1];
      if j < k {
        StreamKeepsLedger(t, frames, maxCommands, j, k - 1);
      } else {
        StreamKeepsLedger(t, frames, maxCommands, k - 1, k - 1);
      }
      var before := RunStream(t, frames[..k - 1], maxCommands);
      ReceiveKeepsLedger(before, frames[k - 1], maxCommands);
      FailureSticks(before, frames[k - 1], maxCommands);
    }
  }

  lemma FailureSticks(p: Progress, f: Frame, maxCommands: nat)
    ensures p.failure.Some? ==> Receive(p, f, maxCommands) == p
  {
  }

  // ---------------------------------------------------------------- resending a stream

  /** A request already answered is answered the same again, and leaves the later tables alone. */
  lemma AppendAgain(t: Tables, r: Request, later: Tables)
    requires Ledger(t) && Ledger(later)
    requires AppendOne(t, r).1.Err? ==> later == t
    requires AppendOne(t, r).1.Ok? ==> forall k :: Settled(AppendOne(t, r).0, r, k) ==> Settled(later, r, k)
    ensures AppendOne(later, r) == (later, AppendOne(t, r).1)
  {
    hide AppendOne, Ledger, Settled;
    AppendOneKeepsLedger(t, r);
    if AppendOne(t, r).1.Ok? {
      var k :| && Settled(AppendOne(t, r).0, r, k)
               && AppendOne(t, r).1 == Ok([StoredEvent(k, r.quoteId, EventOf(r.command.value))]);
      SettledIsBound(later, r, k);
      BoundKeyAnswersItsCommandOnly(later, r);
    }
  }

  /**
    A frame the first attempt has already processed does the same again on the tables of the cut attempt:
    the same local variables, and the tables left alone.
  */
  lemma ReceiveAgain(p: Progress, f: Frame, maxCommands: nat, later: Tables)
    requires Ledger(p.tables) && Ledger(later)
    requires
      var p' := Receive(p, f, maxCommands);
      if p'.failure.Some? then later == p.tables
      else forall r: Request, k :: Settled(p'.tables, r, k) ==> Settled(later, r, k)
    ensures Receive(p.(tables := later), f, maxCommands) == Receive(p, f, maxCommands).(tables := later)
  {
    hide AppendOne, Ledger, Settled, ValidIdentifier;
    if f.Message? {
      var r := Request(f.quoteId, f.clientCommandId, f.command);
      AppendOneKeepsLedger(p.tables, r);
      if Receive(p, f, maxCommands).failure.None? {
        AppendAgain(p.tables, r, later);
      }
    }
  }

  lemma {:induction false} ResendUpTo(t: Tables, frames: seq<Frame>, maxCommands: nat, j: nat, k: nat)
    requires Ledger(t) && j <= k <= |frames|
    ensures
      var cut := RunStream(t, frames[..k], maxCommands).tables;
      RunStream(cut, frames[..j], maxCommands) == RunStream(t, frames[..j], maxCommands).(tables := cut)
    decreases j
  {
    if j > 0 {
      hide Receive, Ledger, Settled;
      var cut := RunStream(t, frames[..k], maxCommands).tables;
      assert frames[..j][..j - 1] == frames[..j - 1];
      var before := RunStream(t, frames[..j - 1], maxCommands);
      ResendUpTo(t, frames, maxCommands, j - 1, k);
      StreamKeepsLedger(t, frames, maxCommands, j - 1, k);
      StreamKeepsLedger(t, frames, maxCommands, j, k);
      ReceiveKeepsLedger(before, frames[j - 1], maxCommands);
      ReceiveAgain(before, frames[j - 1], maxCommands, cut);
    }
  }

  lemma {:induction false} SameProgressAfter(t: Tables, u: Tables, frames: seq<Frame>, maxCommands: nat, k: nat)
    requires k <= |frames| && RunStream(t, frames[..k], maxCommands) == RunStream(u, frames[..k], maxCommands)
    ensures RunStream(t, frames, maxCommands) == RunStream(u, frames, maxCommands)
    decreases |frames|
  {
    hide Receive;
    if k == |frames| {
      assert frames[..k] == frames;
    } else {
      var n := |frames| - 1;
      assert frames[..n][..k] == frames[..k];
      SameProgressAfter(t, u, frames[..n], maxCommands, k);
    }
  }

  /**
    Batch retry converges. If a stream is cut after any number of frames (also after a commit whose reply
    is lost, or after a command that failed) and then resent whole, with no other writer in between, the
    resent stream ends with the same tables and the same reply as one uninterrupted stream.
  */
  lemma ResentStreamConverges(t: Tables, frames: seq<Frame>, maxCommands: nat, k: nat)
    requires Ledger(t) && k <= |frames|
    ensures
      var cut := RunStream(t, frames[..k], maxCommands).tables;
      && RunStream(cut, frames, maxCommands) == RunStream(t, frames, maxCommands)
      && Reply(RunStream(cut, frames, maxCommands)) == Reply(RunStream(t, frames, maxCommands))
  {
    var cut := RunStream(t, frames[..k], maxCommands).tables;
    ResendUpTo(t, frames, maxCommands, k, k);
    SameProgressAfter(cut, t, frames, maxCommands, k);
  }

  /** Frames received one after the other, from any point of a call. */
  function ReceiveAll(p: Progress, frames: seq<Frame>, maxCommands: nat): Progress {
    if frames == [] then p
    else Receive(ReceiveAll(p, frames[..|frames| - 1], maxCommands), frames[|frames| - 1], maxCommands)
  }

  lemma {:induction false} StreamInParts(t: Tables, a: seq<Frame>, b: seq<Frame>, maxCommands: nat)
    ensures RunStream(t, a + b, maxCommands) == ReceiveAll(RunStream(t, a, maxCommands), b, maxCommands)
    decreases |b|
  {
    hide Receive;
    if b == [] {
      assert a + b == a;
    } else {
      var n := |b| - 1;
      assert (a + b)[..|a| + n] == a + b[..n];
      StreamInParts(t, a, b[..n], maxCommands);
    }
  }

  /** The frame passes every check of the loop, so its command reaches the database. */
  predicate ReachesTheDatabase(p: Progress, f: Frame, maxCommands: nat) {
    && p.failure.None? && f.Message? && p.commandCount < maxCommands
    && ValidIdentifier(f.clientCommandId) && ValidIdentifier(f.quoteId)
    && (p.quoteId.Some? ==> p.quoteId.value == f.quoteId)
  }

  lemma FrameRunsItsRequest(p: Progress, f: Frame, maxCommands: nat)
    requires ReachesTheDatabase(p, f, maxCommands)
    ensures Receive(p, f, maxCommands).tables == AppendOne(p.tables, RequestOf(f)).0
    ensures Receive(p, f, maxCommands).failure.Some? <==> AppendOne(p.tables, RequestOf(f)).1.Err?
  {
    hide AppendOne, ValidIdentifier;
  }

  /** The tables at some later point of the uninterrupted stream already hold what the detached closure would do. */
  lemma DetachedAddsNothing(t: Tables, frames: seq<Frame>, maxCommands: nat, k: nat, j: nat)
    requires Ledger(t) && k < j <= |frames|
    requires ReachesTheDatabase(RunStream(t, frames[..k], maxCommands), frames[k], maxCommands)
    ensures
      var later := RunStream(t, frames[..j], maxCommands).tables;
      AppendOne(later, RequestOf(frames[k])).0 == later
  {
    hide AppendOne, Ledger, Settled, Receive, ReachesTheDatabase;
    var before, after := RunStream(t, frames[..k], maxCommands), RunStream(t, frames[..k + 1], maxCommands);
    assert frames[..k + 1][..k] == frames[..k];
    assert after == Receive(before, frames[k], maxCommands);
    var r := MessageAt(before, frames[k], maxCommands);
    FrameRunsItsRequest(before, frames[k], maxCommands);
    StreamKeepsLedger(t, frames, maxCommands, k, k + 1);
    StreamKeepsLedger(t, frames, maxCommands, k + 1, j);
    ReceiveKeepsLedger(before, frames[k], maxCommands);
    AppendAgain(before.tables, r, RunStream(t, frames[..j], maxCommands).tables);
  }

  lemma MessageAt(p: Progress, f: Frame, maxCommands: nat) returns (r: Request)
    requires ReachesTheDatabase(p, f, maxCommands)
    ensures f.Message? && r == RequestOf(f)
  {
    r := RequestOf(f);
  }

  /**
    Batch retry converges although the cut left a closure behind. The first attempt is cancelled while the
    command of frame k waits for the database; its closure runs after any j frames of the resend, before,
    at or after its own frame. The resend still ends with the same tables and the same reply as one
    uninterrupted stream.
  */
  lemma ResentStreamAbsorbsDetachedClosure(t: Tables, frames: seq<Frame>, maxCommands: nat, k: nat, j: nat)
    requires Ledger(t) && k < |frames| && j <= |frames|
    requires ReachesTheDatabase(RunStream(t, frames[..k], maxCommands), frames[k], maxCommands)
    ensures
      var cut := RunStream(t, frames[..k], maxCommands).tables;
      var resent := RunStream(cut, frames[..j], maxCommands);
      var landed := resent.(tables := AppendOne(resent.tables, RequestOf(frames[k])).0);
      ReceiveAll(landed, frames[j..], maxCommands) == RunStream(t, frames, maxCommands)
  {
    hide AppendOne, Ledger, Receive, ReachesTheDatabase;
    var before := RunStream(t, frames[..k], maxCommands);
    var r := MessageAt(before, frames[k], maxCommands);
    var cut := before.tables;
    var resent := RunStream(cut, frames[..j], maxCommands);
    assert frames[..j] + frames[j..] == frames;
    assert frames[..k + 1][..k] == frames[..k];
    StreamKeepsLedger(t, frames, maxCommands, k, k);
    if j <= k {
      var done := RunStream(t, frames[..k + 1], maxCommands).tables;
      FrameRunsItsRequest(before, frames[k], maxCommands);
      ResendUpTo(t, frames, maxCommands, j, k);
      ResendUpTo(t, frames, maxCommands, j, k + 1);
      assert resent.(tables := done) == RunStream(done, frames[..j], maxCommands);
      StreamInParts(done, frames[..j], frames[j..], maxCommands);
      ResentStreamConverges(t, frames, maxCommands, k + 1);
    } else {
      assert frames[..j][..k] == frames[..k];
      ResentStreamConverges(t, frames[..j], maxCommands, k);
      DetachedAddsNothing(t, frames, maxCommands, k, j);
      StreamInParts(t, frames[..j], frames[j..], maxCommands);
    }
  }

  /** The way a cut shows on the server: a transport error or an idle timeout ends the first attempt. */
  lemma CutIsAFailedStream(t: Tables, frames: seq<Frame>, maxCommands: nat, k: nat, cutBy: Frame)
    requires k <= |frames| && !cutBy.Message?
    ensures
      var first := RunStream(t, frames[..k] + [cutBy], maxCommands);
      first.tables == RunStream(t, frames[..k], maxCommands).tables && Reply(first).Err?
  {
    assert (frames[..k] + [cutBy])[..k] == frames[..k];
  }

  // ---------------------------------------------------------------- what a reply says

  predicate IsReceipt(f: Frame, e: StoredEvent) {
    && f.Message? && f.command.Some?
    && e.quoteId == f.quoteId && e.event == EventOf(f.command.value)
  }

  lemma {:induction false} ReceiptsSoFar(t: Tables, frames: seq<Frame>, maxCommands: nat)
    requires Ledger(t) && RunStream(t, frames, maxCommands).failure.None?
    ensures
      var p := RunStream(t, frames, maxCommands);
      && |p.allCommitted| == |frames|
      && (forall i :: 0 <= i < |frames| ==> IsReceipt(frames[i], p.allCommitted[i]))
      && (forall i :: 0 <= i < |frames| ==>
            Settled(p.tables, Request(frames[i].quoteId, frames[i].clientCommandId, frames[i].command),
                    p.allCommitted[i].seqNo))
      && (frames != [] ==> p.lastCommittedSeq == p.allCommitted[|frames| - 1].seqNo)
  {
    hide Receive, Ledger, Settled, EventOf;
    if frames != [] {
      var n := |frames| - 1;
      var before := RunStream(t, frames[..n], maxCommands);
      FailureSticks(before, frames[n], maxCommands);
      ReceiptsSoFar(t, frames[..n], maxCommands);
      StreamKeepsLedger(t, frames, maxCommands, n, n);
      ReceiveKeepsLedger(before, frames[n], maxCommands);
      var e := ReceiptOf(before, frames[n], maxCommands);
      var p := RunStream(t, frames, maxCommands);
      forall i | 0 <= i < |frames|
        ensures
          && IsReceipt(frames[i], p.allCommitted[i])
          && Settled(p.tables, Request(frames[i].quoteId, frames[i].clientCommandId, frames[i].command),
                     p.allCommitted[i].seqNo)
      {
        if i < n {
          assert frames[..n][i] == frames[i];
        }
      }
    }
  }

  /** A frame that does not fail the call adds one receipt. */
  lemma ReceiptOf(p: Progress, f: Frame, maxCommands: nat) returns (e: StoredEvent)
    requires Ledger(p.tables) && p.failure.None? && Receive(p, f, maxCommands).failure.None?
    ensures
      var p' := Receive(p, f, maxCommands);
      && p'.allCommitted == p.allCommitted + [e] && p'.lastCommittedSeq == e.seqNo
      && IsReceipt(f, e)
      && Settled(p'.tables, Request(f.quoteId, f.clientCommandId, f.command), e.seqNo)
  {
    hide AppendOne, Ledger, Settled, ValidIdentifier;
    var r := Request(f.quoteId, f.clientCommandId, f.command);
    AppendOneKeepsLedger(p.tables, r);
    e := AppendOne(p.tables, r).1.value[0];
  }

  /**
    A successful answer: one receipt for every command, in order, each the command's own event at the place of
    the log its key is bound to; and the last sequence number is that of the last receipt.
  */
  ghost predicate Receipts(t: Tables, frames: seq<Frame>, resp: Response) {
    && |resp.committed| == |frames| > 0
    && (forall i :: 0 <= i < |frames| ==> IsReceipt(frames[i], resp.committed[i]))
    && (forall i :: 0 <= i < |frames| ==>
          Settled(t, Request(frames[i].quoteId, frames[i].clientCommandId, frames[i].command),
                  resp.committed[i].seqNo))
    && resp.lastCommittedSeq == resp.committed[|frames| - 1].seqNo
  }

  /** Every successful reply has one receipt per command, settled in the tables the call leaves behind. */
  lemma ReplyHasOneReceiptPerCommand(t: Tables, frames: seq<Frame>, maxCommands: nat)
    requires Ledger(t) && Reply(RunStream(t, frames, maxCommands)).Ok?
    ensures
      var p := RunStream(t, frames, maxCommands);
      Receipts(p.tables, frames, Reply(p).value)
  {
    hide Settled, Ledger, IsReceipt, Receive;
    ReceiptsSoFar(t, frames, maxCommands);
  }

  // ---------------------------------------------------------------- when a stream succeeds

  function RequestOf(f: Frame): Request
    requires f.Message?
  {
    Request(f.quoteId, f.clientCommandId, f.command)
  }

  /** Messages only, with valid ids, all for the same quote. */
  predicate Uniform(frames: seq<Frame>) {
    forall i :: 0 <= i < |frames| ==>
      && frames[i].Message?
      && ValidIdentifier(frames[i].clientCommandId) && ValidIdentifier(frames[i].quoteId)
      && frames[0].Message? && frames[i].quoteId == frames[0].quoteId
  }

  function Requests(frames: seq<Frame>): seq<Request>
    requires Uniform(frames)
  {
    seq(|frames|, i requires 0 <= i < |frames| => RequestOf(frames[i]))
  }

  lemma {:induction false} NoFailureIff(t: Tables, frames: seq<Frame>, maxCommands: nat)
    ensures
      var p := RunStream(t, frames, maxCommands);
      && (p.failure.None? <==> |frames| <= maxCommands && Uniform(frames) && AllSucceed(t, Requests(frames)))
      && (p.failure.None? ==>
            && p.tables == RunAll(t, Requests(frames))
            && p.commandCount == |frames|
            && p.quoteId == (if frames == [] then None else Some(frames[0].quoteId)))
  {
    hide AppendOne, ValidIdentifier, AllSucceed;
    if frames != [] {
      var n := |frames| - 1;
      NoFailureIff(t, frames[..n], maxCommands);
      FailureSticks(RunStream(t, frames[..n], maxCommands), frames[n], maxCommands);
      UniformPlusOne(frames);
      if Uniform(frames) {
        assert Requests(frames)[..n] == Requests(frames[..n]);
        AllSucceedPlusOne(t, Requests(frames));
      }
    } else {
      assert Uniform(frames) && Requests(frames) == [];
      NoneFail(t);
    }
  }

  /**
    A call succeeds if and only if its stream is not empty, has at most the allowed number of frames, all of
    them messages with valid ids for one quote, and each command succeeds in turn. Its effect then is the
    commands' own, one after the other.
  */
  lemma StreamSucceedsIff(t: Tables, frames: seq<Frame>, maxCommands: nat)
    ensures
      var p := RunStream(t, frames, maxCommands);
      && (Reply(p).Ok?
          <==> 0 < |frames| <= maxCommands && Uniform(frames) && AllSucceed(t, Requests(frames)))
      && (Reply(p).Ok? ==> p.tables == RunAll(t, Requests(frames)))
      && (frames == [] ==> Reply(p) == Err(InvalidArgument) && p.tables == t)
  {
    hide AllSucceed, Receive, RunAll;
    NoFailureIff(t, frames, maxCommands);
  }

  /**
    The status of a failed call is decided by the first frame k that fails. Before it come k commands that
    succeeded in turn; the error is the transport's or the timeout's, or the limit is exceeded, or an id is
    bad or the quote changes, or it is the command's own error on the tables after those k commands.
  */
  lemma FirstFailureIsAnswered(t: Tables, frames: seq<Frame>, maxCommands: nat, k: nat)
    requires k < |frames| && RunStream(t, frames[..k], maxCommands).failure.None?
    ensures k <= maxCommands && Uniform(frames[..k])
    ensures
      var f := frames[k];
      var tables := RunAll(t, Requests(frames[..k]));
      var reply := Reply(RunStream(t, frames, maxCommands));
      match f
      case TransportError => reply == Err(TransportFailure)
      case IdleTimeout => reply == Err(DeadlineExceeded)
      case Message(q, cid, command) =>
        if k == maxCommands then reply == Err(ResourceExhausted)
        else if !ValidIdentifier(cid) || !ValidIdentifier(q) || (k > 0 && !SameQuote(frames[0], f))
        then reply == Err(InvalidArgument)
        else AppendOne(tables, RequestOf(f)).1.Err? ==> reply == Err(AppendOne(tables, RequestOf(f)).1.error)
  {
    hide AppendOne, ValidIdentifier, AllSucceed, RunAll;
    NoFailureIff(t, frames[..k], maxCommands);
    assert frames[..k + 1][..k] == frames[..k];
    if RunStream(t, frames[..k + 1], maxCommands).failure.Some? {
      FailureStays(t, frames, maxCommands, k + 1);
    }
  }

  predicate SameQuote(f: Frame, g: Frame) {
    f.Message? && g.Message? && f.quoteId == g.quoteId
  }

  lemma {:induction false} FailureStays(t: Tables, frames: seq<Frame>, maxCommands: nat, k: nat)
    requires k <= |frames| && RunStream(t, frames[..k], maxCommands).failure.Some?
    ensures RunStream(t, frames, maxCommands) == RunStream(t, frames[..k], maxCommands)
    decreases |frames|
  {
    hide Receive;
    if k == |frames| {
      assert frames[..k] == frames;
    } else {
      var n := |frames| - 1;
      assert frames[..n][..k] == frames[..k];
      FailureStays(t, frames[..n], maxCommands, k);
      FailureSticks(RunStream(t, frames[..n], maxCommands), frames[n], maxCommands);
    }
  }

  lemma UniformPlusOne(frames: seq<Frame>)
    requires frames != []
    ensures
      var n := |frames| - 1;
      Uniform(frames) <==>
        && Uniform(frames[..n])
        && frames[n].Message?
        && ValidIdentifier(frames[n].clientCommandId) && ValidIdentifier(frames[n].quoteId)
        && frames[0].Message? && frames[n].quoteId == frames[0].quoteId
  {
    hide ValidIdentifier;
    var n := |frames| - 1;
    assert forall i :: 0 <= i < n ==> frames[..n][i] == frames[i];
  }
}
