/**
 * What the one-beginning promise leaves open. A done mark does not raise the emitted flag, so an attempt
 * that fails after its mark can still be retried, and nothing stops one reply from holding two. For which
 * servers only the last attempt reaches the sink, and for which the sink is never told "done" twice.
 */
module DoneMarks {
  import opened Prelude
  import opened Errors
  import opened Httpx
  import opened Streaming

  // ---- What a reply holds, read off the reply alone

  /** The line that ends the scan or lets a token out: whatever comes after it is never reached quietly. */
  function Breaks(lines: seq<Line>): Option<Line> {
    if lines == [] then None
    else if lines[0].Blank? || (lines[0].ChunkLine? && lines[0].token == "" && !lines[0].done) then Breaks(lines[1..])
    else Some(lines[0])
  }

  /** The lines reach a done chunk before anything that ends the scan. */
  predicate ReachesDone(lines: seq<Line>) {
    lines != [] &&
    match lines[0]
    case Blank => ReachesDone(lines[1..])
    case Garbage => false
    case ErrorLine(_) => false
    case ChunkLine(_, done, _, _) => done || ReachesDone(lines[1..])
  }

  predicate HasStop(events: seq<Event>) {
    exists i :: 0 <= i < |events| && events[i].MessageStop?
  }

  predicate Quiet(events: seq<Event>) {
    forall i :: 0 <= i < |events| && events[i].Delta? ==> events[i].text == ""
  }

  /** The server's k-th reply holds a done mark. */
  predicate Marks(provider: Provider, k: nat) {
    match provider
    case Ollama(bodies) => bodies(k).Body? && ReachesDone(bodies(k).lines)
    case Bedrock(streams) => streams(k).Events? && HasStop(streams(k).events)
  }

  /** After the loop, a stall or a retryable read error, if the scanner reports one. */
  predicate FailsAfterLoop(scannerError: Option<Error>, stalled: bool) {
    stalled || (scannerError.Some? && OllamaRetryable(scannerError.value))
  }

  predicate OllamaAgain(reply: OllamaReply) {
    match reply
    case Rejected(e) => OllamaRetryable(e)
    case Body(lines, readError, metEarly, stalled) =>
      match Breaks(lines)
      case None => FailsAfterLoop(readError, stalled)
      case Some(Blank) => false
      case Some(Garbage) => false
      case Some(ErrorLine(cause)) => OllamaRetryable(cause)
      case Some(ChunkLine(token, done, _, _)) =>
        token == "" && done && FailsAfterLoop(if metEarly then readError else None, stalled)
  }

  predicate BedrockAgain(reply: BedrockReply) {
    match reply
    case NotStarted(e) => BedrockRetryable(e)
    case Events(events, ending) =>
      Quiet(events) && (ending.IdleTooLong? || (ending.ClosedWith? && BedrockRetryable(ending.err)))
  }

  /** The server's k-th reply lets no token out and fails in a way that is worth repeating. */
  predicate Again(provider: Provider, k: nat) {
    match provider
    case Ollama(bodies) => OllamaAgain(bodies(k))
    case Bedrock(streams) => BedrockAgain(streams(k))
  }

  // ---- An attempt delivers a mark, and is retried, exactly when its reply says so

  lemma TokenStays(sent: seq<Chunk>, longer: seq<Chunk>)
    requires sent <= longer && HasToken(sent)
    ensures HasToken(longer)
  {
    var i :| 0 <= i < |sent| && sent[i].Token?;
    assert longer[i] == sent[i];
  }

  lemma {:induction false} OllamaScanMarks(lines: seq<Line>, refuses: nat -> bool, base: nat,
                                           sent: seq<Chunk>, content: string)
    ensures var s := OllamaScan(lines, refuses, base, sent, content);
            && sent <= s.sent
            && (!HasToken(s.sent) ==> (s.sent == sent <==> !ReachesDone(lines)))
  {
    if lines != [] {
      match lines[0]
      case Blank => OllamaScanMarks(lines[1..], refuses, base, sent, content);
      case Garbage =>
      case ErrorLine(_) =>
      case ChunkLine(token, done, _, _) =>
        var sent' := if token != "" then sent + [Token(token)] else sent;
        OneMore(sent, Token(token));
        if !(token != "" && refuses(base + |sent|)) && !done {
          OllamaScanMarks(lines[1..], refuses, base, sent', content + token);
        }
        var s := OllamaScan(lines, refuses, base, sent, content);
        assert sent' <= s.sent;
        hide HasToken, OllamaScan;
        if token != "" {
          TokenStays(sent', s.sent);
        }
    }
  }

  lemma StopFirst(events: seq<Event>)
    requires events != []
    ensures HasStop(events) <==> events[0].MessageStop? || HasStop(events[1..])
    ensures Quiet(events) <==> (events[0].Delta? ==> events[0].text == "") && Quiet(events[1..])
  {
    var rest := events[1..];
    assert forall i :: 1 <= i < |events| ==> events[i] == rest[i - 1];
    if HasStop(rest) {
      var i :| 0 <= i < |rest| && rest[i].MessageStop?;
      assert events[i + 1].MessageStop?;
    }
    if !Quiet(rest) {
      var i :| 0 <= i < |rest| && rest[i].Delta? && rest[i].text != "";
      assert events[i + 1] == rest[i];
    }
  }

  lemma {:induction false} BedrockScanMarks(events: seq<Event>, ending: Ending, refuses: nat -> bool, base: nat,
                                            sent: seq<Chunk>, out: Response)
    ensures var a := BedrockScan(events, ending, refuses, base, sent, out);
            && sent <= a.delivered
            && (!HasToken(a.delivered) ==> (a.delivered == sent <==> !HasStop(events)))
  {
    hide HasToken;
    if events != [] {
      StopFirst(events);
      hide HasStop, Quiet;
      var rest := events[1..];
      match events[0]
      case Delta(t) =>
        OneMore(sent, Token(t));
        if t == "" {
          BedrockScanMarks(rest, ending, refuses, base, sent, out);
        } else {
          BedrockScanMarks(rest, ending, refuses, base, sent + [Token(t)], out.(content := out.content + t));
          var a := BedrockScan(events, ending, refuses, base, sent, out);
          TokenStays(sent + [Token(t)], a.delivered);
        }
      case MessageStop(r) =>
        BedrockScanMarks(rest, ending, refuses, base, sent + [EndMark], out.(finishReason := r));
      case Metadata(n) => BedrockScanMarks(rest, ending, refuses, base, sent, out.(tokens := n));
      case OtherEvent => BedrockScanMarks(rest, ending, refuses, base, sent, out);
    }
  }

  lemma AttemptMarks(provider: Provider, refuses: nat -> bool, k: nat, base: nat)
    ensures var a := Attempted(provider, refuses, k, false, base);
            !HasToken(a.delivered) ==> (a.delivered == [] <==> !Marks(provider, k))
  {
    hide HasToken;
    match provider
    case Ollama(bodies) =>
      if bodies(k).Body? {
        OllamaScanMarks(bodies(k).lines, refuses, base, [], "");
      }
    case Bedrock(streams) =>
      if streams(k).Events? {
        BedrockScanMarks(streams(k).events, streams(k).ending, refuses, base, [], Response("", "stop", 0));
      }
  }

  /** Where the loop is left when the reply has not let a token out by then. */
  lemma {:induction false} OllamaScanBreaks(lines: seq<Line>, refuses: nat -> bool, base: nat, content: string)
    ensures var s, b := OllamaScan(lines, refuses, base, [], content), Breaks(lines);
            match b
            case None => s == Scanned([], s.content, None, None)
            case Some(Blank) => false
            case Some(Garbage) => s == Scanned([], s.content, None, Some(Leaf(InvalidResponse)))
            case Some(ErrorLine(cause)) => s == Scanned([], s.content, None, Some(cause))
            case Some(ChunkLine(token, done, reason, tokens)) =>
              if token == "" then done && s == Scanned([EndMark], s.content, Some(Final(reason, tokens)), None)
              else HasToken(s.sent)
  {
    if lines != [] {
      if lines[0].Blank? {
        OllamaScanBreaks(lines[1..], refuses, base, content);
      } else if lines[0].ChunkLine? && lines[0].token == "" && !lines[0].done {
        OllamaScanBreaks(lines[1..], refuses, base, content + lines[0].token);
      } else if lines[0].ChunkLine? && lines[0].token != "" {
        var token := lines[0].token;
        OneMore([], Token(token));
        OneMore([Token(token)], EndMark);
        OllamaScanMarks(lines[1..], refuses, base, [Token(token)], content + token);
        assert [] + [Token(token)] == [Token(token)];
        hide HasToken;
        var s := OllamaScan(lines, refuses, base, [], content);
        assert [Token(token)] <= s.sent;
        TokenStays([Token(token)], s.sent);
      }
    }
  }

  predicate FailsRetryably(provider: Provider, err: Option<Error>) {
    err.Some? && ProviderRetryable(provider, err.value)
  }

  lemma OllamaAgainIsExact(bodies: nat -> OllamaReply, refuses: nat -> bool, k: nat, base: nat)
    ensures FailsRetryably(Ollama(bodies), Attempted(Ollama(bodies), refuses, k, false, base).err) <==> OllamaAgain(bodies(k))
  {
    if bodies(k).Body? {
      OllamaScanBreaks(bodies(k).lines, refuses, base, "");
      EveryAttemptIsContained(Ollama(bodies), refuses, k, false, base);
      assert !HasToken([]) && !HasToken([EndMark]);
      var a := Attempted(Ollama(bodies), refuses, k, false, base);
      hide HasToken, OllamaScan, Breaks;
      if a.err.Some? && HasToken(a.delivered) {
        FinalIsNotRetried(a.err.value);
      }
    }
  }

  lemma {:induction false} BedrockScanAgain(events: seq<Event>, ending: Ending, refuses: nat -> bool, base: nat,
                                            sent: seq<Chunk>, out: Response)
    requires out.content == Text(sent) && !HasToken(sent)
    ensures var a := BedrockScan(events, ending, refuses, base, sent, out);
            a.err.Some? && BedrockRetryable(a.err.value) <==> BedrockAgain(Events(events, ending))
  {
    hide HasToken, Text;
    if events != [] {
      StopFirst(events);
      var rest := events[1..];
      hide Quiet, BedrockRetryable;
      match events[0]
      case Delta(t) =>
        if t == "" {
          BedrockScanAgain(rest, ending, refuses, base, sent, out);
        } else {
          LoudIsFinal(events, ending, refuses, base, sent, out);
        }
      case MessageStop(r) =>
        OneMore(sent, EndMark);
        assert Text(sent) + "" == Text(sent);
        BedrockScanAgain(rest, ending, refuses, base, sent + [EndMark], out.(finishReason := r));
      case Metadata(n) => BedrockScanAgain(rest, ending, refuses, base, sent, out.(tokens := n));
      case OtherEvent => BedrockScanAgain(rest, ending, refuses, base, sent, out);
    }
  }

  lemma LoudIsFinal(events: seq<Event>, ending: Ending, refuses: nat -> bool, base: nat, sent: seq<Chunk>, out: Response)
    requires events != [] && events[0].Delta? && events[0].text != "" && out.content == Text(sent)
    ensures var a := BedrockScan(events, ending, refuses, base, sent, out);
            a.err.Some? ==> !BedrockRetryable(a.err.value)
  {
    hide HasToken, Text;
    var t := events[0].text;
    OneMore(sent, Token(t));
    BedrockScanIsContained(events, ending, refuses, base, sent, out);
    BedrockScanMarks(events[1..], ending, refuses, base, sent + [Token(t)], out.(content := out.content + t));
    var a := BedrockScan(events, ending, refuses, base, sent, out);
    TokenStays(sent + [Token(t)], a.delivered);
    if a.err.Some? {
      FinalIsNotRetried(a.err.value);
    }
  }

  /** Whatever the sink refuses, an attempt is worth repeating exactly when its reply is. */
  lemma AgainIsExact(provider: Provider, refuses: nat -> bool, k: nat, base: nat)
    ensures FailsRetryably(provider, Attempted(provider, refuses, k, false, base).err) <==> Again(provider, k)
  {
    match provider
    case Ollama(bodies) => OllamaAgainIsExact(bodies, refuses, k, base);
    case Bedrock(streams) =>
      if streams(k).Events? {
        BedrockScanAgain(streams(k).events, streams(k).ending, refuses, base, [], Response("", "stop", 0));
      }
  }

  // ---- Exactly when only the last attempt reaches the sink

  ghost predicate OnlyLastDelivers(provider: Provider, refuses: nat -> bool, p: Policy, cut: nat -> bool) {
    forall i :: 1 <= i < StreamDone(provider, refuses, p, cut).attempts ==>
      AttemptAt(provider, refuses, i).delivered == []
  }

  lemma EarlierAttempt(provider: Provider, refuses: nat -> bool, p: Policy, cut: nat -> bool, i: nat)
    requires 1 <= i < StreamDone(provider, refuses, p, cut).attempts
    ensures Again(provider, i)
    ensures AttemptAt(provider, refuses, i).delivered == [] <==> !Marks(provider, i)
  {
    hide HasToken, Again, Marks, Attempted;
    FromIsCharacterised(PolicyOf(provider, p), Results(provider, refuses), cut, 1);
    NothingBefore(provider, refuses, p, cut, i - 1);
    OneBeginning(provider, refuses, p, cut);
    var before := DeliveredBy(provider, refuses, i - 1);
    assert Retried(PolicyOf(provider, p), Results(provider, refuses), cut, i);
    AttemptMarks(provider, refuses, i, |before|);
    AgainIsExact(provider, refuses, i, |before|);
  }

  /**
   * On one run: no earlier attempt hands the sink anything at all if and only if the server put no done
   * mark in any reply before the last.
   */
  lemma OnlyLastDeliversIffNoEarlierMark(provider: Provider, refuses: nat -> bool, p: Policy, cut: nat -> bool)
    ensures OnlyLastDelivers(provider, refuses, p, cut) <==>
            forall i :: 1 <= i < StreamDone(provider, refuses, p, cut).attempts ==> !Marks(provider, i)
  {
    forall i | 1 <= i < StreamDone(provider, refuses, p, cut).attempts
      ensures AttemptAt(provider, refuses, i).delivered == [] <==> !Marks(provider, i)
    {
      hide Marks, AttemptAt, StreamDone;
      EarlierAttempt(provider, refuses, p, cut, i);
    }
  }

  /** Replies 1 to k all fail quietly and retryably. */
  ghost predicate AgainUpTo(provider: Provider, k: nat) {
    forall j :: 1 <= j <= k ==> Again(provider, j)
  }

  const ACCEPTS: nat -> bool := (n: nat) => false

  lemma {:induction false} QuietFailuresAreRetried(provider: Provider, p: Policy, k: nat)
    requires AgainUpTo(provider, k)
    ensures forall i :: 1 <= i <= k ==> Retried(PolicyOf(provider, p), Results(provider, ACCEPTS), ACCEPTS, i)
  {
    hide Again, HasToken, Attempted;
    if k > 0 {
      QuietFailuresAreRetried(provider, p, k - 1);
      NothingBefore(provider, ACCEPTS, p, ACCEPTS, k - 1);
      AgainIsExact(provider, ACCEPTS, k, |DeliveredBy(provider, ACCEPTS, k - 1)|);
    }
  }

  /** A policy patient enough to get past k retryable replies does get past them. */
  lemma GetsPast(provider: Provider, p: Policy, k: nat)
    requires AgainUpTo(provider, k) && p.attempts == k + 1
    ensures StreamDone(provider, ACCEPTS, p, ACCEPTS).attempts == k + 1
  {
    hide Results, Retried, AgainUpTo;
    FromIsCharacterised(PolicyOf(provider, p), Results(provider, ACCEPTS), ACCEPTS, 1);
    QuietFailuresAreRetried(provider, p, k);
  }

  /** A policy of some number of attempts, the rest of it being anything. */
  function Attempts(n: nat): Policy {
    Policy(n, 0, None, (k: nat, d: int) => d)
  }

  /**
   * On the replies alone: whatever the policy, the cancellations and the sink, only the last attempt reaches
   * the sink, if and only if every reply with a done mark comes after, or is itself, one not worth repeating.
   */
  lemma OnlyLastDeliversForSureIff(provider: Provider)
    ensures (forall refuses, p, cut :: OnlyLastDelivers(provider, refuses, p, cut)) <==>
            (forall k :: k >= 1 && AgainUpTo(provider, k) ==> !Marks(provider, k))
  {
    hide Again, Marks, AttemptAt, StreamDone;
    if forall k :: k >= 1 && AgainUpTo(provider, k) ==> !Marks(provider, k) {
      forall refuses, p, cut ensures OnlyLastDelivers(provider, refuses, p, cut) {
        forall i | 1 <= i < StreamDone(provider, refuses, p, cut).attempts ensures !Marks(provider, i) {
          forall j | 1 <= j <= i ensures Again(provider, j) {
            EarlierAttempt(provider, refuses, p, cut, j);
          }
          assert AgainUpTo(provider, i);
        }
        OnlyLastDeliversIffNoEarlierMark(provider, refuses, p, cut);
      }
    }
    if forall refuses, p, cut :: OnlyLastDelivers(provider, refuses, p, cut) {
      forall k | k >= 1 && AgainUpTo(provider, k) ensures !Marks(provider, k) {
        GetsPast(provider, Attempts(k + 1), k);
        assert OnlyLastDelivers(provider, ACCEPTS, Attempts(k + 1), ACCEPTS);
        OnlyLastDeliversIffNoEarlierMark(provider, ACCEPTS, Attempts(k + 1), ACCEPTS);
      }
    }
  }

  // ---- Exactly when a done mark can come twice

  function MarkCount(chunks: seq<Chunk>): nat {
    if chunks == [] then 0
    else MarkCount(chunks[..|chunks| - 1]) + (if chunks[|chunks| - 1].EndMark? then 1 else 0)
  }

  function Stops(events: seq<Event>): nat {
    if events == [] then 0 else (if events[0].MessageStop? then 1 else 0) + Stops(events[1..])
  }

  /** How many done marks the server's k-th reply holds. Ollama's scan ends at its first; Bedrock's does not. */
  function MarksIn(provider: Provider, k: nat): nat {
    match provider
    case Ollama(bodies) => if bodies(k).Body? && ReachesDone(bodies(k).lines) then 1 else 0
    case Bedrock(streams) => if streams(k).Events? then Stops(streams(k).events) else 0
  }

  /** The done marks in replies 1 to k. */
  function TotalMarks(provider: Provider, k: nat): nat {
    if k == 0 then 0 else TotalMarks(provider, k - 1) + MarksIn(provider, k)
  }

  lemma CountOneMore(chunks: seq<Chunk>, c: Chunk)
    ensures MarkCount(chunks + [c]) == MarkCount(chunks) + (if c.EndMark? then 1 else 0)
  {
    assert (chunks + [c])[..|chunks|] == chunks;
  }

  lemma {:induction false} CountJoined(a: seq<Chunk>, b: seq<Chunk>)
    ensures MarkCount(a + b) == MarkCount(a) + MarkCount(b)
  {
    if b == [] {
      assert a + b == a;
    } else {
      var init, last := b[..|b| - 1], b[|b| - 1];
      assert b == init + [last];
      Snoc(a, init, last);
      CountJoined(a, init);
      CountOneMore(a + init, last);
      CountOneMore(init, last);
      hide MarkCount;
    }
  }

  ghost predicate Refuses(refuses: nat -> bool) {
    exists n :: refuses(n)
  }

  lemma {:induction false} OllamaScanCounts(lines: seq<Line>, refuses: nat -> bool, base: nat,
                                            sent: seq<Chunk>, content: string)
    ensures var s, n := OllamaScan(lines, refuses, base, sent, content), if ReachesDone(lines) then 1 else 0;
            && MarkCount(s.sent) <= MarkCount(sent) + n
            && (!Refuses(refuses) ==> MarkCount(s.sent) == MarkCount(sent) + n)
  {
    if lines != [] {
      match lines[0]
      case Blank => OllamaScanCounts(lines[1..], refuses, base, sent, content);
      case Garbage =>
      case ErrorLine(_) =>
      case ChunkLine(token, done, _, _) =>
        var sent' := if token != "" then sent + [Token(token)] else sent;
        CountOneMore(sent, Token(token));
        CountOneMore(sent', EndMark);
        hide MarkCount;
        if !(token != "" && refuses(base + |sent|)) && !done {
          OllamaScanCounts(lines[1..], refuses, base, sent', content + token);
        }
    }
  }

  lemma {:induction false} BedrockScanCounts(events: seq<Event>, ending: Ending, refuses: nat -> bool, base: nat,
                                             sent: seq<Chunk>, out: Response)
    ensures var a := BedrockScan(events, ending, refuses, base, sent, out);
            && MarkCount(a.delivered) <= MarkCount(sent) + Stops(events)
            && (!Refuses(refuses) ==> MarkCount(a.delivered) == MarkCount(sent) + Stops(events))
  {
    hide HasToken, MarkCount;
    if events != [] {
      var rest := events[1..];
      match events[0]
      case Delta(t) =>
        CountOneMore(sent, Token(t));
        if t == "" {
          BedrockScanCounts(rest, ending, refuses, base, sent, out);
        } else if !refuses(base + |sent|) {
          BedrockScanCounts(rest, ending, refuses, base, sent + [Token(t)], out.(content := out.content + t));
        }
      case MessageStop(r) =>
        CountOneMore(sent, EndMark);
        BedrockScanCounts(rest, ending, refuses, base, sent + [EndMark], out.(finishReason := r));
      case Metadata(n) => BedrockScanCounts(rest, ending, refuses, base, sent, out.(tokens := n));
      case OtherEvent => BedrockScanCounts(rest, ending, refuses, base, sent, out);
    }
  }

  lemma AttemptCounts(provider: Provider, refuses: nat -> bool, k: nat, emitted: bool, base: nat)
    ensures var a := Attempted(provider, refuses, k, emitted, base);
            && MarkCount(a.delivered) <= MarksIn(provider, k)
            && (!Refuses(refuses) && !emitted ==> MarkCount(a.delivered) == MarksIn(provider, k))
  {
    assert MarkCount([]) == 0;
    hide MarkCount, Refuses;
    if !emitted {
      match provider
      case Ollama(bodies) =>
        if bodies(k).Body? {
          OllamaScanCounts(bodies(k).lines, refuses, base, [], "");
        }
      case Bedrock(streams) =>
        if streams(k).Events? {
          BedrockScanCounts(streams(k).events, streams(k).ending, refuses, base, [], Response("", "stop", 0));
        }
    }
  }

  /** No run is handed more marks than the replies hold, and a quiet one with a willing sink all of them. */
  lemma {:induction false} RunCounts(provider: Provider, refuses: nat -> bool, k: nat)
    ensures MarkCount(DeliveredBy(provider, refuses, k)) <= TotalMarks(provider, k)
    ensures !Refuses(refuses) && (k > 0 ==> !HasToken(DeliveredBy(provider, refuses, k - 1))) ==>
              MarkCount(DeliveredBy(provider, refuses, k)) == TotalMarks(provider, k)
  {
    if k > 0 {
      hide MarkCount, Attempted, MarksIn, Refuses, HasToken;
      var before := DeliveredBy(provider, refuses, k - 1);
      var a := Attempted(provider, refuses, k, HasToken(before), |before|);
      RunCounts(provider, refuses, k - 1);
      AttemptCounts(provider, refuses, k, HasToken(before), |before|);
      CountJoined(before, a.delivered);
      if k > 1 {
        var earlier := DeliveredBy(provider, refuses, k - 2);
        Joining(earlier, Attempted(provider, refuses, k - 1, HasToken(earlier), |earlier|).delivered);
      }
    }
  }

  ghost predicate MarkedAtMostOnce(provider: Provider, refuses: nat -> bool, p: Policy, cut: nat -> bool) {
    MarkCount(DeliveredBy(provider, refuses, StreamDone(provider, refuses, p, cut).attempts)) <= 1
  }

  lemma AtMostOnce(provider: Provider, refuses: nat -> bool, p: Policy, cut: nat -> bool)
    requires forall k: nat :: AgainUpTo(provider, k) ==> TotalMarks(provider, k + 1) <= 1
    ensures MarkedAtMostOnce(provider, refuses, p, cut)
  {
    hide StreamDone, Again, TotalMarks, DeliveredBy, MarkCount;
    var n := StreamDone(provider, refuses, p, cut).attempts;
    OneBeginning(provider, refuses, p, cut);
    AtLeastOneAttempt(provider, refuses, p, cut);
    forall j | 1 <= j <= n - 1 ensures Again(provider, j) {
      EarlierAttempt(provider, refuses, p, cut, j);
    }
    assert AgainUpTo(provider, n - 1);
    RunCounts(provider, refuses, n);
  }

  lemma AtLeastOneAttempt(provider: Provider, refuses: nat -> bool, p: Policy, cut: nat -> bool)
    ensures StreamDone(provider, refuses, p, cut).attempts >= 1
  {
  }

  lemma AllAreHandedOver(provider: Provider, k: nat)
    requires AgainUpTo(provider, k)
    requires MarkedAtMostOnce(provider, ACCEPTS, Attempts(k + 1), ACCEPTS)
    ensures TotalMarks(provider, k + 1) <= 1
  {
    hide AgainUpTo, DeliveredBy, TotalMarks, MarkCount, StreamDone, HasToken;
    GetsPast(provider, Attempts(k + 1), k);
    QuietFailuresAreRetried(provider, Attempts(k + 1), k);
    NothingBefore(provider, ACCEPTS, Attempts(k + 1), ACCEPTS, k);
    RunCounts(provider, ACCEPTS, k + 1);
  }

  /**
   * Exactly the servers for which the sink is never told "done" twice, whatever the policy, the cancellations
   * and the sink: those with at most one done mark in all the replies a patient caller can come to see, the
   * opening run of quiet retryable ones and the one after it.
   */
  lemma DoneComesOnceForSureIff(provider: Provider)
    ensures (forall refuses, p, cut :: MarkedAtMostOnce(provider, refuses, p, cut)) <==>
            (forall k: nat :: AgainUpTo(provider, k) ==> TotalMarks(provider, k + 1) <= 1)
  {
    hide AgainUpTo, TotalMarks, MarkedAtMostOnce;
    if forall k: nat :: AgainUpTo(provider, k) ==> TotalMarks(provider, k + 1) <= 1 {
      forall refuses, p, cut ensures MarkedAtMostOnce(provider, refuses, p, cut) {
        AtMostOnce(provider, refuses, p, cut);
      }
    }
    if forall refuses, p, cut :: MarkedAtMostOnce(provider, refuses, p, cut) {
      forall k: nat | AgainUpTo(provider, k) ensures TotalMarks(provider, k + 1) <= 1 {
        AllAreHandedOver(provider, k);
      }
    }
  }

  /** Reaching the sink from the last attempt alone is another matter: one reply can hold two marks. */
  lemma OneReplyTwoMarks(p: Policy, cut: nat -> bool, refuses: nat -> bool)
    ensures var provider := Bedrock((k: nat) => Events([MessageStop("stop"), MessageStop("stop")], ClosedCleanly));
            && OnlyLastDelivers(provider, refuses, p, cut)
            && !MarkedAtMostOnce(provider, refuses, p, cut)
  {
    var provider := Bedrock((k: nat) => Events([MessageStop("stop"), MessageStop("stop")], ClosedCleanly));
    var events := [MessageStop("stop"), MessageStop("stop")];
    assert events[1..] == [MessageStop("stop")] && events[1..][1..] == [];
    assert [] + [EndMark] == [EndMark] && [EndMark] + [EndMark] == [EndMark, EndMark];
    calc {
      BedrockFresh(provider.streams(1), refuses, 0);
      BedrockScan(events, ClosedCleanly, refuses, 0, [], Response("", "stop", 0));
      BedrockScan([MessageStop("stop")], ClosedCleanly, refuses, 0, [EndMark], Response("", "stop", 0));
      BedrockScan([], ClosedCleanly, refuses, 0, [EndMark, EndMark], Response("", "stop", 0));
      Attempt([EndMark, EndMark], None, Response("", "stop", 0));
    }
    assert !HasToken([]);
    hide BedrockFresh, HasToken;
    assert Results(provider, refuses)(1) == None;
    assert StreamDone(provider, refuses, p, cut) == Done(1, None);
    assert DeliveredBy(provider, refuses, 1) == [EndMark, EndMark];
    TwoInARow();
    hide MarkCount;
  }

  lemma TwoInARow()
    ensures MarkCount([EndMark, EndMark]) == 2
  {
    assert MarkCount([]) == 0;
    hide MarkCount;
    CountOneMore([], EndMark);
    CountOneMore([EndMark], EndMark);
    assert [] + [EndMark] == [EndMark] && [EndMark] + [EndMark] == [EndMark, EndMark];
  }

  lemma NoFurther(provider: Provider, k: nat, j: nat)
    requires AgainUpTo(provider, k) && j >= 1 && !Again(provider, j)
    ensures k < j
  {
    hide Again;
  }

  /** And an earlier attempt's mark need not have a second: here nothing ever follows it. */
  lemma MarkedThenShutOut()
    ensures var provider := Bedrock((k: nat) =>
              if k == 1 then Events([MessageStop("stop")], ClosedWith(Leaf(Throttled))) else NotStarted(Leaf(Unauthorized)));
            && (forall refuses, p, cut :: MarkedAtMostOnce(provider, refuses, p, cut))
            && !(forall refuses, p, cut :: OnlyLastDelivers(provider, refuses, p, cut))
  {
    var provider := Bedrock((k: nat) =>
      if k == 1 then Events([MessageStop("stop")], ClosedWith(Leaf(Throttled))) else NotStarted(Leaf(Unauthorized)));
    assert [MessageStop("stop")][1..] == [];
    assert MarksIn(provider, 1) == 1 && MarksIn(provider, 2) == 0;
    assert Again(provider, 1) && !Again(provider, 2);
    assert provider.streams(1).events[0].MessageStop?;
    assert Marks(provider, 1);
    hide MarksIn, Again, Marks, MarkedAtMostOnce, OnlyLastDelivers;
    assert TotalMarks(provider, 1) == 1 && TotalMarks(provider, 2) == 1;
    hide TotalMarks;
    forall k: nat | AgainUpTo(provider, k) ensures TotalMarks(provider, k + 1) <= 1 {
      NoFurther(provider, k, 2);
    }
    DoneComesOnceForSureIff(provider);
    OnlyLastDeliversForSureIff(provider);
    assert AgainUpTo(provider, 1);
  }

  // ---- One server of each provider for which the sink is told twice

  /** A Bedrock server that finishes one stream but closes it with a throttle, and serves the next in full. */
  function ThrottledAtTheEnd(): Provider {
    Bedrock((k: nat) =>
      if k == 1 then Events([MessageStop("stop")], ClosedWith(Leaf(Throttled)))
      else Events([Delta("a"), MessageStop("stop")], ClosedCleanly))
  }

  /** An Ollama server whose first body is done with no token when its connection has already dropped. */
  function DroppedAtTheEnd(): Provider {
    Ollama((k: nat) =>
      if k == 1 then Body([ChunkLine("", true, "stop", 0)], Some(Leaf(Unavailable)), true, false)
      else Body([ChunkLine("a", true, "stop", 1)], None, false, false))
  }

  lemma ServedInFull(refuses: nat -> bool)
    requires !refuses(1)
    ensures BedrockFresh(Events([Delta("a"), MessageStop("stop")], ClosedCleanly), refuses, 1)
         == Attempt([Token("a"), EndMark], None, Response("a", "stop", 0))
    ensures OllamaFresh(Body([ChunkLine("a", true, "stop", 1)], None, false, false), refuses, 1)
         == Attempt([Token("a"), EndMark], None, Response("a", "stop", 1))
  {
    assert "" + "a" == "a" && [] + [Token("a")] == [Token("a")] && [Token("a")] + [EndMark] == [Token("a"), EndMark];
    var events := [Delta("a"), MessageStop("stop")];
    assert events[1..] == [MessageStop("stop")];
    calc {
      BedrockScan(events, ClosedCleanly, refuses, 1, [], Response("", "stop", 0));
      BedrockScan([MessageStop("stop")], ClosedCleanly, refuses, 1, [Token("a")], Response("a", "stop", 0));
      BedrockScan([], ClosedCleanly, refuses, 1, [Token("a"), EndMark], Response("a", "stop", 0));
    }
  }

  lemma MarkedThenServed(provider: Provider, p: Policy, cut: nat -> bool, refuses: nat -> bool, first: Error, r: Response)
    requires p.attempts == 2 && !cut(1) && ProviderRetryable(provider, first)
    requires Attempted(provider, refuses, 1, false, 0) == Attempt([EndMark], Some(first), NO_RESPONSE)
    requires Attempted(provider, refuses, 2, false, 1) == Attempt([Token("a"), EndMark], None, r)
    ensures StreamDone(provider, refuses, p, cut) == Done(2, None)
    ensures DeliveredBy(provider, refuses, 2) == [EndMark, Token("a"), EndMark]
  {
    assert !HasToken([EndMark]) && !HasToken([]);
    hide HasToken, Attempted, ProviderRetryable;
    assert DeliveredBy(provider, refuses, 1) == [EndMark];
    assert Results(provider, refuses)(1) == Some(first) && Results(provider, refuses)(2) == None;
    var policy := PolicyOf(provider, p);
    assert Repeats(policy, first);
    assert From(policy, Results(provider, refuses), cut, 2) == Done(2, None);
  }

  lemma TwoMarks()
    ensures MarkCount([EndMark, Token("a"), EndMark]) == 2
  {
    assert MarkCount([]) == 0;
    hide MarkCount;
    CountOneMore([], EndMark);
    CountOneMore([EndMark], Token("a"));
    CountOneMore([EndMark, Token("a")], EndMark);
    assert [] + [EndMark] == [EndMark] && [EndMark] + [Token("a")] == [EndMark, Token("a")];
    assert [EndMark, Token("a")] + [EndMark] == [EndMark, Token("a"), EndMark];
  }

  /** With two attempts and a willing sink, both servers have it told "done" twice. */
  lemma DoneMarkCanRepeat(p: Policy, cut: nat -> bool, refuses: nat -> bool, provider: Provider)
    requires p.attempts == 2 && !cut(1) && !refuses(1)
    requires provider == ThrottledAtTheEnd() || provider == DroppedAtTheEnd()
    ensures StreamDone(provider, refuses, p, cut) == Done(2, None)
    ensures DeliveredBy(provider, refuses, 2) == [EndMark, Token("a"), EndMark]
    ensures !OnlyLastDelivers(provider, refuses, p, cut) && !MarkedAtMostOnce(provider, refuses, p, cut)
  {
    TwoMarks();
    hide MarkCount;
    ServedInFull(refuses);
    assert !HasToken([EndMark]) && !HasToken([]);
    hide HasToken;
    var first := if provider.Bedrock? then Leaf(Throttled) else Leaf(Unavailable);
    assert Attempted(provider, refuses, 1, false, 0) == Attempt([EndMark], Some(first), NO_RESPONSE);
    MarkedThenServed(provider, p, cut, refuses, first, Attempted(provider, refuses, 2, false, 1).response);
    hide StreamDone, DeliveredBy, Attempted;
    assert AttemptAt(provider, refuses, 1).delivered == [EndMark] by {
      assert DeliveredBy(provider, refuses, 0) == [];
    }
  }
}
