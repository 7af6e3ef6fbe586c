/**
 * Streaming on top of retries: the two providers' attempts, and the promise that a caller never sees a
 * second beginning. What the server sends and whether the sink refuses its n-th delivery are oracles.
 */
module Streaming {
  import opened Prelude
  import opened Errors
  import opened Httpx

  datatype Chunk = Token(text: string) | EndMark

  datatype Response = Response(content: string, finishReason: string, tokens: int)

  const NO_RESPONSE := Response("", "", 0)

  function TextOf(c: Chunk): string {
    if c.Token? then c.text else ""
  }

  function Text(chunks: seq<Chunk>): string {
    if chunks == [] then "" else Text(chunks[..|chunks| - 1]) + TextOf(chunks[|chunks| - 1])
  }

  predicate HasToken(chunks: seq<Chunk>) {
    exists i :: 0 <= i < |chunks| && chunks[i].Token?
  }

  lemma OneMore(chunks: seq<Chunk>, c: Chunk)
    ensures Text(chunks + [c]) == Text(chunks) + TextOf(c)
    ensures HasToken(chunks + [c]) <==> HasToken(chunks) || c.Token?
  {
    var more := chunks + [c];
    assert more[..|chunks|] == chunks && more[|chunks|] == c;
    if HasToken(chunks) {
      var i :| 0 <= i < |chunks| && chunks[i].Token?;
      assert more[i].Token?;
    }
  }

  lemma {:induction false} Joining(a: seq<Chunk>, b: seq<Chunk>)
    ensures Text(a + b) == Text(a) + Text(b)
    ensures HasToken(a + b) <==> HasToken(a) || HasToken(b)
  {
    if b == [] {
      assert a + b == a;
    } else {
      var init, last := b[..|b| - 1], b[|b| - 1];
      assert b == init + [last] && a + b == (a + init) + [last];
      Joining(a, init);
      OneMore(a + init, last);
      OneMore(init, last);
      hide Text, HasToken;
      Associates(Text(a), Text(init), TextOf(last));
    }
  }

  lemma Snoc<T>(a: seq<T>, b: seq<T>, c: T)
    ensures (a + b) + [c] == a + (b + [c])
    ensures |a + b| == |a| + |b|
  {
  }

  lemma Associates(x: string, y: string, z: string)
    ensures (x + y) + z == x + (y + z)
  {
  }

  lemma {:induction false} TokenlessIsSilent(chunks: seq<Chunk>)
    requires !HasToken(chunks)
    ensures Text(chunks) == ""
  {
    if chunks != [] {
      var before := chunks[..|chunks| - 1];
      OneMore(before, chunks[|chunks| - 1]);
      assert before + [chunks[|chunks| - 1]] == chunks;
      TokenlessIsSilent(before);
    }
  }

  // ---- What an attempt is, and when it may be repeated

  /** One attempt: what it handed to the sink, how it ended, and the response it would return. */
  datatype Attempt = Attempt(delivered: seq<Chunk>, err: Option<Error>, response: Response)

  /** A failure becomes terminal once output has escaped; both the consequence and the cause are wrapped. */
  function StreamError(emitted: bool, err: Error): Error {
    if emitted then Joined(Leaf(StreamBroken), err) else err
  }

  predicate OllamaRetryable(err: Error) {
    if Is(err, StreamBroken) then false
    else Is(err, Unavailable) || Is(err, Timeout) || Is(err, Stalled)
  }

  predicate BedrockRetryable(err: Error) {
    if Is(err, StreamBroken) then false
    else if Is(err, Throttled) then true
    else Is(err, Unavailable) || Is(err, Timeout) || Is(err, Stalled)
  }

  // ---- Ollama: one JSON object a line

  datatype Line =
    | Blank
    | Garbage
    | ErrorLine(cause: Error)
    | ChunkLine(token: string, done: bool, reason: string, tokens: int)

  /**
   * A rejected request, or a body: its lines, the error its reader ends on, whether that error had been met
   * by the time the done line was scanned, and whether the stall timer fired before the loop was left.
   */
  datatype OllamaReply =
    | Rejected(err: Error)
    | Body(lines: seq<Line>, readError: Option<Error>, metEarly: bool, stalled: bool)

  datatype Final = Final(reason: string, tokens: int)

  /** Where the scan loop leaves things: early with a failure, or for the checks after it. */
  datatype Scanned = Scanned(sent: seq<Chunk>, content: string, final: Option<Final>, failed: Option<Error>)

  function OllamaScan(lines: seq<Line>, refuses: nat -> bool, base: nat, sent: seq<Chunk>, content: string): Scanned {
    if lines == [] then Scanned(sent, content, None, None)
    else
      match lines[0]
      case Blank => OllamaScan(lines[1..], refuses, base, sent, content)
      case Garbage => Scanned(sent, content, None, Some(StreamError(HasToken(sent), Leaf(InvalidResponse))))
      case ErrorLine(cause) => Scanned(sent, content, None, Some(StreamError(HasToken(sent), cause)))
      case ChunkLine(token, done, reason, tokens) =>
        var sent' := if token != "" then sent + [Token(token)] else sent;
        if token != "" && refuses(base + |sent|) then Scanned(sent', content + token, None, Some(Leaf(Canceled)))
        else if done then Scanned(sent' + [EndMark], content + token, Some(Final(reason, tokens)), None)
        else OllamaScan(lines[1..], refuses, base, sent', content + token)
  }

  function ScannerError(final: Option<Final>, readError: Option<Error>, metEarly: bool): Option<Error> {
    if final.None? || metEarly then readError else None
  }

  /** The checks after the loop, in their order: a read error, a stall, a missing done marker. */
  function AfterLoop(s: Scanned, scannerError: Option<Error>, stalled: bool): Attempt {
    var emitted := HasToken(s.sent);
    if s.failed.Some? then Attempt(s.sent, s.failed, NO_RESPONSE)
    else if scannerError.Some? then
      Attempt(s.sent, Some(StreamError(emitted, if stalled then Leaf(Stalled) else scannerError.value)), NO_RESPONSE)
    else if stalled then Attempt(s.sent, Some(StreamError(emitted, Leaf(Stalled))), NO_RESPONSE)
    else if s.final.None? then Attempt(s.sent, Some(StreamError(emitted, Leaf(InvalidResponse))), NO_RESPONSE)
    else Attempt(s.sent, None, ToResponse(s.final.value, s.content))
  }

  function ToResponse(final: Final, content: string): Response {
    Response(content, if final.reason == "" then "stop" else final.reason, final.tokens)
  }

  function OllamaFresh(reply: OllamaReply, refuses: nat -> bool, base: nat): Attempt {
    match reply
    case Rejected(e) => Attempt([], Some(e), NO_RESPONSE)
    case Body(lines, readError, metEarly, stalled) =>
      var s := OllamaScan(lines, refuses, base, [], "");
      AfterLoop(s, ScannerError(s.final, readError, metEarly), stalled)
  }

  // ---- Bedrock: an event channel

  datatype Event =
    | Delta(text: string)
    | MessageStop(reason: string)
    | Metadata(tokens: int)
    | OtherEvent

  datatype Ending = ClosedCleanly | ClosedWith(err: Error) | IdleTooLong | CallerGone

  /** A stream that never started, or its events and what the select met after the last of them. */
  datatype BedrockReply =
    | NotStarted(err: Error)
    | Events(events: seq<Event>, ending: Ending)

  function BedrockScan(events: seq<Event>, ending: Ending, refuses: nat -> bool, base: nat,
                       sent: seq<Chunk>, out: Response): Attempt
  {
    var emitted := HasToken(sent);
    if events == [] then
      match ending
      case ClosedCleanly => Attempt(sent, None, out)
      case ClosedWith(e) => Attempt(sent, Some(StreamError(emitted, e)), NO_RESPONSE)
      case IdleTooLong => Attempt(sent, Some(StreamError(emitted, Leaf(Stalled))), NO_RESPONSE)
      case CallerGone => Attempt(sent, Some(StreamError(emitted, Leaf(Canceled))), NO_RESPONSE)
    else
      match events[0]
      case Delta(t) =>
        if t == "" then BedrockScan(events[1..], ending, refuses, base, sent, out)
        else if refuses(base + |sent|) then Attempt(sent + [Token(t)], Some(Leaf(Canceled)), NO_RESPONSE)
        else BedrockScan(events[1..], ending, refuses, base, sent + [Token(t)], out.(content := out.content + t))
      case MessageStop(r) =>
        BedrockScan(events[1..], ending, refuses, base, sent + [EndMark], out.(finishReason := r))
      case Metadata(n) => BedrockScan(events[1..], ending, refuses, base, sent, out.(tokens := n))
      case OtherEvent => BedrockScan(events[1..], ending, refuses, base, sent, out)
  }

  function BedrockFresh(reply: BedrockReply, refuses: nat -> bool, base: nat): Attempt {
    match reply
    case NotStarted(e) => Attempt([], Some(e), NO_RESPONSE)
    case Events(events, ending) => BedrockScan(events, ending, refuses, base, [], Response("", "stop", 0))
  }

  // ---- Either provider

  /** What a provider's server does on its k-th attempt. */
  datatype Provider = Ollama(bodies: nat -> OllamaReply) | Bedrock(streams: nat -> BedrockReply)

  predicate ProviderRetryable(provider: Provider, err: Error) {
    if provider.Ollama? then OllamaRetryable(err) else BedrockRetryable(err)
  }

  const REFUSAL := Attempt([], Some(Leaf(StreamBroken)), NO_RESPONSE)

  /** Attempt k, when base chunks have been delivered before it and emitted says whether any was a token. */
  function Attempted(provider: Provider, refuses: nat -> bool, k: nat, emitted: bool, base: nat): Attempt {
    if emitted then REFUSAL
    else if provider.Ollama? then OllamaFresh(provider.bodies(k), refuses, base)
    else BedrockFresh(provider.streams(k), refuses, base)
  }

  /** Everything handed to the sink by attempts 1 to k. */
  function DeliveredBy(provider: Provider, refuses: nat -> bool, k: nat): seq<Chunk> {
    if k == 0 then []
    else
      var before := DeliveredBy(provider, refuses, k - 1);
      before + Attempted(provider, refuses, k, HasToken(before), |before|).delivered
  }

  function AttemptAt(provider: Provider, refuses: nat -> bool, k: nat): Attempt
    requires k >= 1
  {
    var before := DeliveredBy(provider, refuses, k - 1);
    Attempted(provider, refuses, k, HasToken(before), |before|)
  }

  function Results(provider: Provider, refuses: nat -> bool): nat -> Option<Error> {
    (k: nat) => if k == 0 then None else AttemptAt(provider, refuses, k).err
  }

  function PolicyOf(provider: Provider, p: Policy): Policy {
    p.(retryable := Some((e: Error) => ProviderRetryable(provider, e)))
  }

  /** The whole of Stream: the retry loop over attempts that share the emitted flag. */
  function StreamDone(provider: Provider, refuses: nat -> bool, p: Policy, cut: nat -> bool): Done {
    From(PolicyOf(provider, p), Results(provider, refuses), cut, 1)
  }

  // ---- Why one beginning

  /** A failure after output escaped, whatever its cause, is one neither provider nor platform repeats. */
  predicate ForGood(err: Error) {
    Is(err, StreamBroken) || err == Leaf(Canceled)
  }

  lemma FinalIsNotRetried(err: Error)
    requires ForGood(err)
    ensures !OllamaRetryable(err) && !BedrockRetryable(err) && !Retryable(Some(err))
  {
  }

  /** An attempt that let a token out either succeeds with exactly that text, or fails for good. */
  ghost predicate Contained(a: Attempt) {
    && (a.err.None? ==> a.response.content == Text(a.delivered))
    && (a.err.Some? && HasToken(a.delivered) ==> ForGood(a.err.value))
  }

  lemma {:induction false} OllamaScanIsContained(lines: seq<Line>, refuses: nat -> bool, base: nat,
                                                 sent: seq<Chunk>, content: string)
    requires content == Text(sent)
    ensures var s := OllamaScan(lines, refuses, base, sent, content);
            && s.content == Text(s.sent)
            && (s.failed.Some? && HasToken(s.sent) ==> ForGood(s.failed.value))
  {
    if lines != [] {
      match lines[0]
      case Blank => OllamaScanIsContained(lines[1..], refuses, base, sent, content);
      case Garbage =>
      case ErrorLine(_) =>
      case ChunkLine(token, done, _, _) =>
        var sent' := if token != "" then sent + [Token(token)] else sent;
        OneMore(sent, Token(token));
        OneMore(sent', EndMark);
        if !(token != "" && refuses(base + |sent|)) && !done {
          OllamaScanIsContained(lines[1..], refuses, base, sent', content + token);
        }
    }
  }

  lemma {:induction false} BedrockScanIsContained(events: seq<Event>, ending: Ending, refuses: nat -> bool, base: nat,
                                                  sent: seq<Chunk>, out: Response)
    requires out.content == Text(sent)
    ensures Contained(BedrockScan(events, ending, refuses, base, sent, out))
  {
    if events != [] {
      match events[0]
      case Delta(t) =>
        OneMore(sent, Token(t));
        if t == "" {
          BedrockScanIsContained(events[1..], ending, refuses, base, sent, out);
        } else if !refuses(base + |sent|) {
          BedrockScanIsContained(events[1..], ending, refuses, base, sent + [Token(t)], out.(content := out.content + t));
        }
      case MessageStop(r) =>
        OneMore(sent, EndMark);
        BedrockScanIsContained(events[1..], ending, refuses, base, sent + [EndMark], out.(finishReason := r));
      case Metadata(n) => BedrockScanIsContained(events[1..], ending, refuses, base, sent, out.(tokens := n));
      case OtherEvent => BedrockScanIsContained(events[1..], ending, refuses, base, sent, out);
    }
  }

  lemma EveryAttemptIsContained(provider: Provider, refuses: nat -> bool, k: nat, emitted: bool, base: nat)
    ensures Contained(Attempted(provider, refuses, k, emitted, base))
  {
    if !emitted {
      match provider
      case Ollama(bodies) =>
        if bodies(k).Body? {
          OllamaScanIsContained(bodies(k).lines, refuses, base, [], "");
        }
      case Bedrock(streams) =>
        if streams(k).Events? {
          BedrockScanIsContained(streams(k).events, streams(k).ending, refuses, base, [], Response("", "stop", 0));
        }
    }
  }

  lemma {:induction false} NothingBefore(provider: Provider, refuses: nat -> bool, p: Policy, cut: nat -> bool, k: nat)
    requires forall i :: 1 <= i <= k ==> Retried(PolicyOf(provider, p), Results(provider, refuses), cut, i)
    ensures !HasToken(DeliveredBy(provider, refuses, k))
    ensures forall i :: 1 <= i <= k ==> !HasToken(AttemptAt(provider, refuses, i).delivered)
  {
    hide Attempted, Text, OllamaRetryable, BedrockRetryable, Is, ForGood;
    if k > 0 {
      NothingBefore(provider, refuses, p, cut, k - 1);
      assert Retried(PolicyOf(provider, p), Results(provider, refuses), cut, k);
      var before := DeliveredBy(provider, refuses, k - 1);
      var a := AttemptAt(provider, refuses, k);
      EveryAttemptIsContained(provider, refuses, k, HasToken(before), |before|);
      if HasToken(a.delivered) {
        FinalIsNotRetried(a.err.value);
      }
      Joining(before, a.delivered);
    }
  }

  /**
   * One beginning per stream, for both providers, whatever the server, the network, the sink and the retry
   * policy's other knobs do: every token the sink was handed came from the last attempt made and no earlier
   * attempt emitted any; a stream that succeeds returns exactly the text handed over; and one that fails
   * after handing over a token fails with an error that the platform's own Retryable refuses too.
   */
  lemma OneBeginning(provider: Provider, refuses: nat -> bool, p: Policy, cut: nat -> bool)
    ensures var d := StreamDone(provider, refuses, p, cut);
            var delivered := DeliveredBy(provider, refuses, d.attempts);
            var last := AttemptAt(provider, refuses, d.attempts);
            && (forall i :: 1 <= i < d.attempts ==> !HasToken(AttemptAt(provider, refuses, i).delivered))
            && Text(delivered) == Text(last.delivered)
            && (HasToken(delivered) <==> HasToken(last.delivered))
            && (d.err.None? ==> last.err.None? && last.response.content == Text(delivered))
            && (d.err.Some? && HasToken(delivered) ==> !Retryable(d.err))
  {
    hide Attempted, Text, HasToken, OllamaRetryable, BedrockRetryable, Retryable, Is, ForGood;
    var d := StreamDone(provider, refuses, p, cut);
    FromIsCharacterised(PolicyOf(provider, p), Results(provider, refuses), cut, 1);
    NothingBefore(provider, refuses, p, cut, d.attempts - 1);
    var before := DeliveredBy(provider, refuses, d.attempts - 1);
    var last := AttemptAt(provider, refuses, d.attempts);
    Joining(before, last.delivered);
    TokenlessIsSilent(before);
    EveryAttemptIsContained(provider, refuses, d.attempts, HasToken(before), |before|);
    if d.err.Some? && HasToken(last.delivered) {
      FinalIsNotRetried(last.err.value);
    }
  }

  // ---- The code as it runs: closures over out and emitted, loops inside a retry loop

  class Stream {
    const provider: Provider
    const refuses: nat -> bool
    var emitted: bool
    var out: Response
    var delivered: seq<Chunk>

    /** The flag is up exactly when a token has reached the sink. */
    ghost predicate Valid()
      reads this
    {
      emitted == HasToken(delivered)
    }

    constructor (provider: Provider, refuses: nat -> bool)
      ensures Valid() && !emitted && delivered == [] && out == NO_RESPONSE
      ensures this.provider == provider && this.refuses == refuses
    {
      this.provider := provider;
      this.refuses := refuses;
      emitted := false;
      out := NO_RESPONSE;
      delivered := [];
    }

    /** The caller's side effect. */
    method Sink(c: Chunk) returns (refused: bool)
      modifies this`delivered
      ensures delivered == old(delivered) + [c]
      ensures refused == refuses(|old(delivered)|)
    {
      refused := refuses(|delivered|);
      delivered := delivered + [c];
    }

    /** Raise the flag, then hand the token over; sent is what this attempt had sent after base. */
    method Emit(token: string, ghost base: seq<Chunk>, ghost sent: seq<Chunk>) returns (refused: bool)
      requires Valid() && delivered == base + sent
      modifies this`emitted, this`delivered
      ensures Valid() && emitted && HasToken(sent + [Token(token)])
      ensures delivered == base + (sent + [Token(token)])
      ensures refused == refuses(|base| + |sent|)
    {
      hide HasToken, Text;
      OneMore(delivered, Token(token));
      OneMore(sent, Token(token));
      Snoc(base, sent, Token(token));
      emitted := true;
      refused := Sink(Token(token));
    }

    /** Say that the stream is done; a refusal is ignored, and the flag is left alone. */
    method MarkEnd(ghost base: seq<Chunk>, ghost sent: seq<Chunk>)
      requires Valid() && delivered == base + sent && emitted == HasToken(sent)
      modifies this`delivered
      ensures Valid() && emitted == HasToken(sent + [EndMark])
      ensures delivered == base + (sent + [EndMark])
    {
      hide HasToken, Text;
      OneMore(delivered, EndMark);
      OneMore(sent, EndMark);
      Snoc(base, sent, EndMark);
      var _ := Sink(EndMark);
    }

    method ScanLines(lines: seq<Line>) returns (content: string, final: Option<Final>, failed: Option<Error>)
      requires Valid() && !emitted
      modifies this`emitted, this`delivered
      ensures Valid()
      ensures var s := OllamaScan(lines, refuses, |old(delivered)|, [], "");
              && s == Scanned(s.sent, content, final, failed)
              && delivered == old(delivered) + s.sent
              && emitted == HasToken(s.sent)
    {
      hide Text;
      ghost var base := delivered;
      ghost var sent: seq<Chunk> := [];
      assert !HasToken(sent) && delivered == base + sent;
      hide HasToken;
      content, final, failed := "", None, None;
      var i := 0;
      while i < |lines|
        invariant 0 <= i <= |lines|
        invariant delivered == base + sent && Valid() && emitted == HasToken(sent)
        invariant final.None? && failed.None?
        invariant OllamaScan(lines, refuses, |base|, [], "") == OllamaScan(lines[i..], refuses, |base|, sent, content)
      {
        var line := lines[i];
        assert lines[i..][0] == line && lines[i..][1..] == lines[i + 1..];
        match line {
          case Blank =>
          case Garbage =>
            failed := Some(StreamError(emitted, Leaf(InvalidResponse)));
            return;
          case ErrorLine(cause) =>
            failed := Some(StreamError(emitted, cause));
            return;
          case ChunkLine(token, done, reason, tokens) =>
            if token != "" {
              content := content + token;
              var refused := Emit(token, base, sent);
              sent := sent + [Token(token)];
              if refused {
                failed := Some(Leaf(Canceled));
                return;
              }
            } else {
              assert content + token == content;
            }
            if done {
              final := Some(Final(reason, tokens));
              MarkEnd(base, sent);
              return;
            }
        }
        i := i + 1;
      }
      assert lines[i..] == [];
    }

    method OllamaAttempt(reply: OllamaReply) returns (err: Option<Error>)
      requires Valid()
      modifies this`emitted, this`out, this`delivered
      ensures Valid()
      ensures var a := if old(emitted) then REFUSAL else OllamaFresh(reply, refuses, |old(delivered)|);
              && delivered == old(delivered) + a.delivered
              && err == a.err
              && out == if a.err.None? then a.response else old(out)
    {
      if emitted {
        return Some(Leaf(StreamBroken));
      }
      match reply
      case Rejected(e) => return Some(e);
      case Body(lines, readError, metEarly, stalled) =>
        var content, final, failed := ScanLines(lines);
        if failed.Some? {
          return failed;
        }
        var scannerError := ScannerError(final, readError, metEarly);
        if scannerError.Some? {
          if stalled {
            return Some(StreamError(emitted, Leaf(Stalled)));
          }
          return Some(StreamError(emitted, scannerError.value));
        }
        if stalled {
          return Some(StreamError(emitted, Leaf(Stalled)));
        }
        if final.None? {
          return Some(StreamError(emitted, Leaf(InvalidResponse)));
        }
        out := ToResponse(final.value, content);
        return None;
    }

    method BedrockAttempt(reply: BedrockReply) returns (err: Option<Error>)
      requires Valid()
      modifies this`emitted, this`out, this`delivered
      ensures Valid()
      ensures var a := if old(emitted) then REFUSAL else BedrockFresh(reply, refuses, |old(delivered)|);
              && delivered == old(delivered) + a.delivered
              && err == a.err
              && out == if a.err.None? then a.response else old(out)
    {
      if emitted {
        return Some(Leaf(StreamBroken));
      }
      if reply.NotStarted? {
        return Some(reply.err);
      }
      var events, ending := reply.events, reply.ending;
      hide Text;
      ghost var base := delivered;
      ghost var sent: seq<Chunk> := [];
      assert !HasToken(sent) && delivered == base + sent;
      hide HasToken;
      var content, reason, usage := "", "stop", 0;
      var i := 0;
      while i < |events|
        invariant 0 <= i <= |events|
        invariant delivered == base + sent && Valid() && emitted == HasToken(sent) && out == old(out)
        invariant BedrockFresh(reply, refuses, |base|)
               == BedrockScan(events[i..], ending, refuses, |base|, sent, Response(content, reason, usage))
      {
        var event := events[i];
        assert events[i..][0] == event && events[i..][1..] == events[i + 1..];
        match event {
          case Delta(text) =>
            if text != "" {
              content := content + text;
              var refused := Emit(text, base, sent);
              sent := sent + [Token(text)];
              if refused {
                return Some(Leaf(Canceled));
              }
            }
          case MessageStop(r) =>
            reason := r;
            MarkEnd(base, sent);
            sent := sent + [EndMark];
          case Metadata(n) => usage := n;
          case OtherEvent =>
        }
        i := i + 1;
      }
      assert events[i..] == [];
      err := Close(ending, Response(content, reason, usage), |base|, sent);
    }

    /** The end of the event loop, whichever way it came. */
    method Close(ending: Ending, response: Response, ghost base: nat, ghost sent: seq<Chunk>) returns (err: Option<Error>)
      requires emitted == HasToken(sent)
      modifies this`out
      ensures var a := BedrockScan([], ending, refuses, base, sent, response);
              && a.delivered == sent && err == a.err
              && out == if a.err.None? then a.response else old(out)
    {
      match ending
      case ClosedCleanly =>
        out := response;
        return None;
      case ClosedWith(e) => return Some(StreamError(emitted, e));
      case IdleTooLong => return Some(StreamError(emitted, Leaf(Stalled)));
      case CallerGone => return Some(StreamError(emitted, Leaf(Canceled)));
    }

    /** The retry loop, with the attempt it retries made in place. */
    method RetryLoop(p: Policy, cut: nat -> bool) returns (attempts: nat, err: Option<Error>)
      requires Valid() && delivered == [] && out == NO_RESPONSE
      modifies this
      ensures Valid()
      ensures Done(attempts, err) == StreamDone(provider, refuses, p, cut)
      ensures delivered == DeliveredBy(provider, refuses, attempts)
      ensures out == if err.None? then AttemptAt(provider, refuses, attempts).response else NO_RESPONSE
    {
      hide OllamaFresh, BedrockFresh, HasToken, OllamaRetryable, BedrockRetryable, Is, ProviderRetryable;
      var policy := PolicyOf(provider, p);
      var total := if p.attempts < 1 then 1 else p.attempts;
      attempts := 1;
      while true
        invariant 1 <= attempts <= total == Total(policy)
        invariant Valid() && out == NO_RESPONSE
        invariant delivered == DeliveredBy(provider, refuses, attempts - 1)
        invariant StreamDone(provider, refuses, p, cut) == From(policy, Results(provider, refuses), cut, attempts)
        decreases total - attempts
      {
        if provider.Ollama? {
          err := OllamaAttempt(provider.bodies(attempts));
        } else {
          err := BedrockAttempt(provider.streams(attempts));
        }
        assert err == Results(provider, refuses)(attempts);
        if err.None? {
          return;
        }
        if !ProviderRetryable(provider, err.value) {
          return;
        }
        if attempts == total {
          return attempts, Some(Joined(Leaf(RetriesExhausted), err.value));
        }
        if cut(attempts) {
          return attempts, Some(Wrapped(err.value));
        }
        attempts := attempts + 1;
      }
    }

    /** Stream, as its caller sees it. */
    method Run(p: Policy, cut: nat -> bool) returns (attempts: nat, err: Option<Error>)
      requires Valid() && delivered == [] && out == NO_RESPONSE
      modifies this
      ensures Done(attempts, err) == StreamDone(provider, refuses, p, cut)
      ensures delivered == DeliveredBy(provider, refuses, attempts)
      ensures emitted == HasToken(delivered)
      ensures err.None? ==> out.content == Text(delivered)
      ensures err.Some? ==> out == NO_RESPONSE
      ensures err.Some? && emitted ==> !Retryable(err)
    {
      attempts, err := RetryLoop(p, cut);
      hide HasToken, Text, Retryable, Attempted;
      OneBeginning(provider, refuses, p, cut);
    }
  }
}
