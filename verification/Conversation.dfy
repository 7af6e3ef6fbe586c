/**
 * The tool-using conversation: ask the model, run what it asks for, hand the results back, and ask again,
 * within a bound on turns and on cost. The model and the tool runner are oracles; every theorem holds
 * whatever they answer.
 */
module Conversation {
  import opened Prelude
  import opened Errors
  import opened IdempotencyKey
  import opened ToolArguments

  datatype Effect = Read | Write

  datatype ToolSpec = ToolSpec(name: string, effect: Effect, schema: Schema)

  datatype ToolCall = ToolCall(id: string, name: string, arguments: string, key: string)

  datatype ToolResult = ToolResult(id: string, name: string, content: string, isError: bool)

  datatype Role = System | User | Assistant

  datatype Message = Message(role: Role, content: string, toolCalls: seq<ToolCall>, toolResults: seq<ToolResult>,
                             reasoning: string)

  datatype Usage = Usage(promptTokens: int, completionTokens: int)

  datatype Response = Response(content: string, toolCalls: seq<ToolCall>, reasoning: string, usage: Usage) {
    predicate WantsTools() {
      |toolCalls| > 0
    }
  }

  /** Generate returns a response even beside an error, and its usage is counted. */
  datatype Reply = Reply(response: Response, err: Option<Error>)

  datatype RunnerReply = Ran(result: ToolResult) | Broke

  datatype Turn = Turn(index: nat, response: Response, results: seq<ToolResult>, effectful: bool)

  datatype Request = Request(prompt: string, messages: seq<Message>, correlationID: string)

  datatype Policy = Policy(maxIterations: int, maxCostUSD: real) {
    function Iterations(): (n: nat)
      ensures n >= 1
    {
      if maxIterations <= 0 then DEFAULT_MAX_ITERATIONS else maxIterations
    }

    predicate Exceeded(cost: real) {
      maxCostUSD > 0.0 && cost > maxCostUSD
    }
  }

  const DEFAULT_MAX_ITERATIONS := 8

  /** generate(i): the i-th model call; run(k): the k-th call of the tool runner. */
  datatype Env = Env(
    toolsSupported: bool,
    specs: seq<ToolSpec>,
    generate: nat -> Reply,
    run: nat -> RunnerReply,
    inputPrice: real,
    outputPrice: real,
    reader: Reader,
    digest: string -> string,
    quote: string -> string,
    explain: (string, Violation) -> string)

  datatype Convo = Convo(content: string, turns: seq<Turn>, usage: Usage, costUSD: real, effects: bool, messages: seq<Message>)

  /** What the caller gets back, with what the outside saw: every transcript sent, every call run. */
  datatype Ended = Ended(convo: Convo, err: Option<Error>, requests: seq<seq<Message>>, asked: seq<ToolCall>)

  const NO_USAGE := Usage(0, 0)
  const NO_CONVO := Convo("", [], NO_USAGE, 0.0, false, [])

  function Cost(env: Env, u: Usage): real {
    u.promptTokens as real / 1000000.0 * env.inputPrice + u.completionTokens as real / 1000000.0 * env.outputPrice
  }

  function Plus(a: Usage, b: Usage): Usage {
    Usage(a.promptTokens + b.promptTokens, a.completionTokens + b.completionTokens)
  }

  // ---- One tool call

  function Lookup(specs: seq<ToolSpec>, name: string): (s: Option<ToolSpec>)
    ensures s.Some? <==> exists i :: 0 <= i < |specs| && specs[i].name == name
    ensures s.Some? ==> s.value in specs && s.value.name == name
  {
    if specs == [] then None
    else if specs[0].name == name then Some(specs[0])
    else Lookup(specs[1..], name)
  }

  method FindSpec(specs: seq<ToolSpec>, name: string) returns (spec: Option<ToolSpec>)
    ensures spec == Lookup(specs, name)
  {
    for i := 0 to |specs|
      invariant Lookup(specs, name) == Lookup(specs[i..], name)
    {
      if specs[i].name == name {
        return Some(specs[i]);
      }
    }
    return None;
  }

  /** The tool is known and its arguments pass: the only way a call reaches the runner. */
  predicate Runnable(env: Env, call: ToolCall) {
    var spec := Lookup(env.specs, call.name);
    spec.Some? && Verdict(spec.value.schema, call.arguments, env.reader).None?
  }

  predicate Writes(env: Env, call: ToolCall) {
    var spec := Lookup(env.specs, call.name);
    spec.Some? && spec.value.effect.Write?
  }

  function Keyed(env: Env, cid: string, call: ToolCall): ToolCall {
    call.(key := env.digest(KeyInput(cid, call.name, call.arguments, env.reader.norm)))
  }

  function NoSuchTool(env: Env, name: string): string {
    "There is no tool called " + env.quote(name)
    + ". The tools you may call are listed in this conversation; use one of those."
  }

  function Rejected(env: Env, name: string, violation: Violation): string {
    "The arguments were rejected: " + env.explain(name, violation)
    + ". Call it again with arguments that match the schema."
  }

  /** What the model is told about a call that never reaches the runner. */
  function Refusal(env: Env, call: ToolCall): string
    requires !Runnable(env, call)
  {
    match Lookup(env.specs, call.name)
    case None => NoSuchTool(env, call.name)
    case Some(spec) => Rejected(env, spec.name, Verdict(spec.schema, call.arguments, env.reader).value)
  }

  /** What became of one call: its result, whether it may have changed something, and whether the runner broke. */
  datatype CallOutcome = CallOutcome(result: ToolResult, effectful: bool, err: Option<Error>, asked: seq<ToolCall>)

  /** The k-th call of the runner, if it comes to that. */
  function RunTool(env: Env, cid: string, call: ToolCall, k: nat): CallOutcome {
    var spec := Lookup(env.specs, call.name);
    if spec.None? then CallOutcome(ToolResult(call.id, call.name, NoSuchTool(env, call.name), true), false, None, [])
    else if Verdict(spec.value.schema, call.arguments, env.reader).Some? then
      var violation := Verdict(spec.value.schema, call.arguments, env.reader).value;
      CallOutcome(ToolResult(call.id, call.name, Rejected(env, spec.value.name, violation), true), false, None, [])
    else
      var effectful, asked := spec.value.effect.Write?, [Keyed(env, cid, call)];
      match env.run(k)
      case Broke => CallOutcome(ToolResult("", "", "", false), effectful, Some(Leaf(ToolFailed)), asked)
      case Ran(r) => CallOutcome(r.(id := call.id, name := call.name), effectful, None, asked)
  }

  method RunOneTool(env: Env, cid: string, call0: ToolCall, asked0: seq<ToolCall>)
    returns (result: ToolResult, effectful: bool, err: Option<Error>, asked: seq<ToolCall>)
    ensures var o := RunTool(env, cid, call0, |asked0|);
            o.result == result && o.effectful == effectful && o.err == err && asked == asked0 + o.asked
  {
    hide Verdict, KeyInput, NoSuchTool, Rejected, Lookup;
    asked := asked0;
    var spec := FindSpec(env.specs, call0.name);
    if spec.None? {
      return ToolResult(call0.id, call0.name, NoSuchTool(env, call0.name), true), false, None, asked;
    }
    effectful := spec.value.effect == Write;
    var violation := ValidateArguments(spec.value.schema, call0.arguments, env.reader);
    if violation.Some? {
      return ToolResult(call0.id, call0.name, Rejected(env, spec.value.name, violation.value), true), false, None, asked;
    }
    var key := DeriveIdempotencyKey(cid, call0.name, call0.arguments, env.reader.norm, env.digest);
    var call := call0.(key := key);
    asked := asked + [call];
    match env.run(|asked| - 1)
    case Broke =>
      return ToolResult("", "", "", false), effectful, Some(Leaf(ToolFailed)), asked;
    case Ran(r) =>
      result := r;
      result := result.(id := call.id, name := call.name);
      return result, effectful, None, asked;
  }

  // ---- The calls of one turn

  datatype Batch = Batch(results: seq<ToolResult>, effects: bool, err: Option<Error>, asked: seq<ToolCall>)

  /** One more call, unless the runner has broken already; k calls have been run before the batch. */
  function Extended(env: Env, cid: string, b: Batch, call: ToolCall, k: nat): Batch {
    if b.err.Some? then b
    else
      var o := RunTool(env, cid, call, k + |b.asked|);
      Batch(if o.err.Some? then b.results else b.results + [o.result],
            b.effects || o.effectful, o.err, b.asked + o.asked)
  }

  /** The calls in order, up to the first the runner breaks on; k calls have been run before them. */
  function RunAll(env: Env, cid: string, calls: seq<ToolCall>, k: nat): Batch {
    if calls == [] then Batch([], false, None, [])
    else Extended(env, cid, RunAll(env, cid, calls[..|calls| - 1], k), calls[|calls| - 1], k)
  }

  /** The calls that reach the runner when it does not break, in order and with their keys. */
  function Reaching(env: Env, cid: string, calls: seq<ToolCall>): seq<ToolCall> {
    if calls == [] then []
    else
      var before, last := Reaching(env, cid, calls[..|calls| - 1]), calls[|calls| - 1];
      if Runnable(env, last) then before + [Keyed(env, cid, last)] else before
  }

  ghost predicate Wrote(env: Env, asked: seq<ToolCall>) {
    exists j :: 0 <= j < |asked| && Writes(env, asked[j])
  }

  /**
   * Result j answers call j: same ID, same name, and either what the runner said to that very call or an
   * error for a call that never reached it. k calls of the runner came before these.
   */
  ghost predicate AnswersCall(env: Env, cid: string, r: ToolResult, calls: seq<ToolCall>, j: nat, k: nat)
    requires j < |calls|
  {
    && r.id == calls[j].id && r.name == calls[j].name
    && if Runnable(env, calls[j]) then
         var reply := env.run(k + |Reaching(env, cid, calls[..j])|);
         reply.Ran? && r.content == reply.result.content && r.isError == reply.result.isError
       else r.isError && r.content == Refusal(env, calls[j])
  }

  ghost predicate Answers(env: Env, cid: string, results: seq<ToolResult>, calls: seq<ToolCall>, k: nat) {
    |results| == |calls| && forall j :: 0 <= j < |calls| ==> AnswersCall(env, cid, results[j], calls, j, k)
  }

  /** Of the runner's calls k, k+1, ... the first n went through. */
  ghost predicate WentThrough(env: Env, k: nat, n: nat) {
    forall j :: k <= j < k + n ==> env.run(j).Ran?
  }

  ghost predicate BatchSound(env: Env, cid: string, calls: seq<ToolCall>, k: nat, b: Batch) {
    && (b.effects <==> Wrote(env, b.asked))
    && match b.err
       case None =>
         Answers(env, cid, b.results, calls, k) && b.asked == Reaching(env, cid, calls) && WentThrough(env, k, |b.asked|)
       case Some(e) =>
         && e == Leaf(ToolFailed) && b.asked != [] && b.asked <= Reaching(env, cid, calls)
         && WentThrough(env, k, |b.asked| - 1) && env.run(k + |b.asked| - 1).Broke?
  }

  lemma WroteOneMore(env: Env, asked: seq<ToolCall>, more: seq<ToolCall>)
    requires |more| <= 1
    ensures Wrote(env, asked + more) <==> Wrote(env, asked) || (more != [] && Writes(env, more[0]))
  {
    hide Writes;
    var both := asked + more;
    assert forall j :: 0 <= j < |asked| ==> both[j] == asked[j];
    if more != [] {
      assert both[|asked|] == more[0];
    }
  }

  lemma WroteJoined(env: Env, a: seq<ToolCall>, b: seq<ToolCall>)
    ensures Wrote(env, a + b) <==> Wrote(env, a) || Wrote(env, b)
  {
    hide Writes;
    var both := a + b;
    assert forall j :: 0 <= j < |a| ==> both[j] == a[j];
    assert forall j :: 0 <= j < |b| ==> both[|a| + j] == b[j];
    if Wrote(env, both) {
      var j :| 0 <= j < |both| && Writes(env, both[j]);
      assert j >= |a| ==> b[j - |a|] == both[j];
    }
  }

  ghost predicate CallSound(env: Env, cid: string, call: ToolCall, k: nat, o: CallOutcome) {
    && o.asked == (if Runnable(env, call) then [Keyed(env, cid, call)] else [])
    && (o.effectful <==> o.asked != [] && Writes(env, o.asked[0]))
    && (o.err.Some? <==> o.asked != [] && env.run(k).Broke?)
    && (o.err.Some? ==> o.err.value == Leaf(ToolFailed))
    && (o.err.None? ==>
          && o.result.id == call.id && o.result.name == call.name
          && (!Runnable(env, call) ==> o.result.isError && o.result.content == Refusal(env, call))
          && (o.asked != [] ==> o.result.content == env.run(k).result.content
                                && o.result.isError == env.run(k).result.isError))
  }

  lemma OneCallIsSound(env: Env, cid: string, call: ToolCall, k: nat)
    ensures CallSound(env, cid, call, k, RunTool(env, cid, call, k))
  {
    hide Verdict, NoSuchTool, Rejected, KeyInput;
  }

  lemma AnswersOneMore(env: Env, cid: string, results: seq<ToolResult>, calls: seq<ToolCall>, k: nat, call: ToolCall,
                       o: CallOutcome)
    requires Answers(env, cid, results, calls, k)
    requires CallSound(env, cid, call, k + |Reaching(env, cid, calls)|, o) && o.err.None?
    ensures Answers(env, cid, results + [o.result], calls + [call], k)
  {
    hide Writes, Keyed, Reaching, Runnable;
    var all, out := calls + [call], results + [o.result];
    forall j | 0 <= j < |all| ensures AnswersCall(env, cid, out[j], all, j, k) {
      if j < |calls| {
        assert AnswersCall(env, cid, results[j], calls, j, k);
        assert all[..j] == calls[..j];
      } else {
        assert all[..j] == calls;
      }
    }
  }

  lemma ReachingOneMore(env: Env, cid: string, calls: seq<ToolCall>, call: ToolCall)
    ensures Reaching(env, cid, calls + [call])
         == Reaching(env, cid, calls) + (if Runnable(env, call) then [Keyed(env, cid, call)] else [])
  {
    hide Runnable;
    assert (calls + [call])[..|calls|] == calls;
  }

  lemma ThroughOneMore(env: Env, k: nat, n: nat)
    requires WentThrough(env, k, n)
    ensures env.run(k + n).Ran? ==> WentThrough(env, k, n + 1)
  {
  }

  lemma BatchStaysBroken(env: Env, cid: string, calls: seq<ToolCall>, k: nat, b: Batch, call: ToolCall)
    requires BatchSound(env, cid, calls, k, b) && b.err.Some?
    ensures BatchSound(env, cid, calls + [call], k, b)
  {
    hide Wrote, Reaching, Answers, WentThrough, Runnable, Keyed;
    ReachingOneMore(env, cid, calls, call);
  }

  lemma BatchOneMore(env: Env, cid: string, calls: seq<ToolCall>, k: nat, b: Batch, call: ToolCall, o: CallOutcome)
    requires BatchSound(env, cid, calls, k, b) && b.err.None?
    requires CallSound(env, cid, call, k + |b.asked|, o)
    ensures BatchSound(env, cid, calls + [call], k,
                       Batch(if o.err.Some? then b.results else b.results + [o.result],
                             b.effects || o.effectful, o.err, b.asked + o.asked))
  {
    hide Writes, Wrote, Runnable, Answers, Reaching, Keyed, WentThrough;
    WroteOneMore(env, b.asked, o.asked);
    ReachingOneMore(env, cid, calls, call);
    ThroughOneMore(env, k, |b.asked|);
    if o.err.None? {
      AnswersOneMore(env, cid, b.results, calls, k, call, o);
    }
  }

  lemma EmptyBatchIsSound(env: Env, cid: string, k: nat)
    ensures BatchSound(env, cid, [], k, Batch([], false, None, []))
  {
    hide AnswersCall;
  }

  lemma OneMoreCall(env: Env, cid: string, calls: seq<ToolCall>, last: ToolCall, k: nat)
    ensures RunAll(env, cid, calls + [last], k) == Extended(env, cid, RunAll(env, cid, calls, k), last, k)
  {
    hide Extended;
    assert (calls + [last])[..|calls|] == calls;
  }

  lemma {:induction false} BatchIsSound(env: Env, cid: string, calls: seq<ToolCall>, k: nat)
    ensures BatchSound(env, cid, calls, k, RunAll(env, cid, calls, k))
  {
    hide RunTool, BatchSound, CallSound;
    if calls == [] {
      EmptyBatchIsSound(env, cid, k);
    } else {
      hide RunAll;
      var init, last := calls[..|calls| - 1], calls[|calls| - 1];
      assert calls == init + [last];
      OneMoreCall(env, cid, init, last, k);
      BatchIsSound(env, cid, init, k);
      var b := RunAll(env, cid, init, k);
      if b.err.None? {
        OneCallIsSound(env, cid, last, k + |b.asked|);
        BatchOneMore(env, cid, init, k, b, last, RunTool(env, cid, last, k + |b.asked|));
      } else {
        BatchStaysBroken(env, cid, init, k, b, last);
      }
    }
  }

  lemma {:induction false} BatchStops(env: Env, cid: string, calls: seq<ToolCall>, i: nat, k: nat)
    requires i <= |calls| && RunAll(env, cid, calls[..i], k).err.Some?
    ensures RunAll(env, cid, calls, k) == RunAll(env, cid, calls[..i], k)
  {
    if i == |calls| {
      assert calls[..i] == calls;
    } else {
      assert calls[..|calls| - 1][..i] == calls[..i];
      BatchStops(env, cid, calls[..|calls| - 1], i, k);
    }
  }

  // ---- The loop

  /** What the loop carries from turn to turn. */
  datatype Loop = Loop(turns: seq<Turn>, usage: Usage, cost: real, effects: bool, messages: seq<Message>,
                       requests: seq<seq<Message>>, asked: seq<ToolCall>)

  function Opening(req: Request): seq<Message> {
    if |req.messages| == 0 then [Message(User, req.prompt, [], [], "")] else req.messages
  }

  function Begin(req: Request): Loop {
    Loop([], NO_USAGE, 0.0, false, Opening(req), [], [])
  }

  function Asking(res: Response): Message {
    Message(Assistant, res.content, res.toolCalls, [], res.reasoning)
  }

  function Answering(results: seq<ToolResult>): Message {
    Message(User, "", [], results, "")
  }

  /** End with an error, marked final if something may already have changed. */
  function Abort(l: Loop, err: Error): Ended {
    Ended(Convo("", l.turns, l.usage, l.cost, l.effects, l.messages),
          Some(if l.effects then Joined(Leaf(EffectsCommitted), err) else err), l.requests, l.asked)
  }

  /** The model call of a turn, counted whether or not it failed. */
  function Asked(env: Env, l: Loop): Loop {
    var usage := Plus(l.usage, env.generate(|l.turns|).response.usage);
    l.(usage := usage, cost := Cost(env, usage), requests := l.requests + [l.messages])
  }

  function Finished(l: Loop, res: Response): Ended {
    Ended(Convo(res.content, l.turns + [Turn(|l.turns|, res, [], false)], l.usage, l.cost, l.effects,
                l.messages + [Message(Assistant, res.content, [], [], res.reasoning)]),
          None, l.requests, l.asked)
  }

  /** The loop after the model's calls have been run, before their results are filed. */
  function AfterCalls(l: Loop, res: Response, b: Batch): Loop {
    l.(messages := l.messages + [Asking(res)], effects := l.effects || b.effects, asked := l.asked + b.asked)
  }

  function Filed(l: Loop, res: Response, results: seq<ToolResult>): Loop {
    l.(turns := l.turns + [Turn(|l.turns|, res, results, l.effects)], messages := l.messages + [Answering(results)])
  }

  function From(env: Env, req: Request, policy: Policy, l: Loop): Ended
    decreases policy.Iterations() - |l.turns|
  {
    if |l.turns| >= policy.Iterations() then Abort(l, Leaf(ToolLoop))
    else
      var reply, l1 := env.generate(|l.turns|), Asked(env, l);
      var res := reply.response;
      if reply.err.Some? then Abort(l1, reply.err.value)
      else if !res.WantsTools() then Finished(l1, res)
      else
        var b := RunAll(env, req.correlationID, res.toolCalls, |l1.asked|);
        var l2 := AfterCalls(l1, res, b);
        if b.err.Some? then Abort(l2, b.err.value)
        else
          var l3 := Filed(l2, res, b.results);
          if policy.Exceeded(l3.cost) then Abort(l3, Leaf(ToolLoop)) else From(env, req, policy, l3)
  }

  function Conversing(env: Env, req: Request, policy: Policy): Ended {
    if !env.toolsSupported then Ended(NO_CONVO, Some(Leaf(Unsupported)), [], [])
    else if |env.specs| == 0 then Ended(NO_CONVO, Some(Leaf(InvalidRequest)), [], [])
    else From(env, req, policy, Begin(req))
  }

  method Converse(env: Env, req: Request, policy: Policy)
    returns (convo: Convo, err: Option<Error>, requests: seq<seq<Message>>, asked: seq<ToolCall>)
    ensures Ended(convo, err, requests, asked) == Conversing(env, req, policy)
  {
    hide RunTool, RunAll;
    convo, requests, asked := NO_CONVO, [], [];
    if !env.toolsSupported {
      return convo, Some(Leaf(Unsupported)), requests, asked;
    }
    if |env.specs| == 0 {
      return convo, Some(Leaf(InvalidRequest)), requests, asked;
    }
    var messages := req.messages;
    if |messages| == 0 {
      messages := [Message(User, req.prompt, [], [], "")];
    }
    var limit := policy.Iterations();
    var i := 0;
    while i < limit
      invariant i == |convo.turns| <= limit
      invariant convo.content == "" && convo.messages == []
      invariant Conversing(env, req, policy)
             == From(env, req, policy, Loop(convo.turns, convo.usage, convo.costUSD, convo.effects, messages, requests, asked))
    {
      requests := requests + [messages];
      var reply := env.generate(i);
      var res := reply.response;
      convo := convo.(usage := Plus(convo.usage, res.usage));
      convo := convo.(costUSD := Cost(env, convo.usage));
      if reply.err.Some? {
        convo, err := AbortConvo(convo, messages, reply.err.value);
        return;
      }
      if !res.WantsTools() {
        convo := convo.(content := res.content);
        convo := convo.(turns := convo.turns + [Turn(i, res, [], false)]);
        convo := convo.(messages := messages + [Message(Assistant, res.content, [], [], res.reasoning)]);
        return convo, None, requests, asked;
      }
      messages := messages + [Asking(res)];
      var results, effects, broken, asked' := RunCalls(env, req.correlationID, res.toolCalls, asked);
      asked := asked';
      if effects {
        convo := convo.(effects := true);
      }
      if broken.Some? {
        convo, err := AbortConvo(convo, messages, broken.value);
        return;
      }
      convo := convo.(turns := convo.turns + [Turn(i, res, results, convo.effects)]);
      messages := messages + [Answering(results)];
      if policy.maxCostUSD > 0.0 && convo.costUSD > policy.maxCostUSD {
        convo, err := AbortConvo(convo, messages, Leaf(ToolLoop));
        return;
      }
      i := i + 1;
    }
    convo, err := AbortConvo(convo, messages, Leaf(ToolLoop));
  }

  lemma CallAt(env: Env, cid: string, calls: seq<ToolCall>, j: nat, k: nat)
    requires j < |calls|
    ensures RunAll(env, cid, calls[..j + 1], k) == Extended(env, cid, RunAll(env, cid, calls[..j], k), calls[j], k)
  {
    hide Extended, RunAll;
    assert calls[..j + 1] == calls[..j] + [calls[j]];
    OneMoreCall(env, cid, calls[..j], calls[j], k);
  }

  lemma NoCalls(env: Env, cid: string, calls: seq<ToolCall>, k: nat)
    ensures RunAll(env, cid, calls[..0], k) == Batch([], false, None, [])
    ensures calls[..|calls|] == calls
  {
  }

  lemma Rejoin<T>(a: seq<T>, b: seq<T>, c: seq<T>)
    ensures |a + b| == |a| + |b| && (a + b) + c == a + (b + c)
  {
  }

  /** The inner loop: one call after another, the effect noted before the error is looked at. */
  method RunCalls(env: Env, cid: string, calls: seq<ToolCall>, asked0: seq<ToolCall>)
    returns (results: seq<ToolResult>, effects: bool, err: Option<Error>, asked: seq<ToolCall>)
    ensures var b := RunAll(env, cid, calls, |asked0|);
            b == Batch(results, effects, err, b.asked) && asked == asked0 + b.asked
  {
    hide RunTool, RunAll;
    NoCalls(env, cid, calls, |asked0|);
    results, effects, err, asked := [], false, None, asked0;
    ghost var run: seq<ToolCall> := [];
    for j := 0 to |calls|
      invariant err.None?
      invariant RunAll(env, cid, calls[..j], |asked0|) == Batch(results, effects, None, run)
      invariant asked == asked0 + run && |asked| == |asked0| + |run|
    {
      CallAt(env, cid, calls, j, |asked0|);
      ghost var o := RunTool(env, cid, calls[j], |asked|);
      var result, effectful, broken, asked' := RunOneTool(env, cid, calls[j], asked);
      Rejoin(asked0, run, o.asked);
      asked := asked';
      run := run + o.asked;
      if effectful {
        effects := true;
      }
      if broken.Some? {
        BatchStops(env, cid, calls, j + 1, |asked0|);
        return results, effects, broken, asked;
      }
      results := results + [result];
    }
  }

  /** End with an error: the cause stays findable, and after an effect it is not one to retry. */
  method AbortConvo(convo0: Convo, messages: seq<Message>, cause: Error) returns (convo: Convo, err: Option<Error>)
    ensures convo == convo0.(messages := messages)
    ensures err == Some(if convo0.effects then Joined(Leaf(EffectsCommitted), cause) else cause)
    ensures forall s :: Is(cause, s) ==> Is(err.value, s)
    ensures convo0.effects ==> Is(err.value, EffectsCommitted) && !Retryable(err)
    ensures !convo0.effects ==> (Retryable(err) <==> Retryable(Some(cause)))
  {
    convo := convo0.(messages := messages);
    var wrapped := cause;
    if convo.effects {
      wrapped := Joined(Leaf(EffectsCommitted), wrapped);
    }
    return convo, Some(wrapped);
  }

  // ---- What every turn keeps

  function UsageOf(env: Env, n: nat): Usage {
    if n == 0 then NO_USAGE else Plus(UsageOf(env, n - 1), env.generate(n - 1).response.usage)
  }

  /** The transcript some turns leave: each question followed by its answers. */
  function Replay(turns: seq<Turn>): seq<Message> {
    if turns == [] then []
    else
      var last := turns[|turns| - 1];
      Replay(turns[..|turns| - 1]) + [Asking(last.response), Answering(last.results)]
  }

  /** Every call of some turns that reaches the runner, in order. */
  function ReachingIn(env: Env, cid: string, turns: seq<Turn>): seq<ToolCall> {
    if turns == [] then []
    else ReachingIn(env, cid, turns[..|turns| - 1]) + Reaching(env, cid, turns[|turns| - 1].response.toolCalls)
  }

  /** Turn i is the model's i-th reply, its calls answered, its flag up if a Write tool has run so far. */
  ghost predicate TurnSound(env: Env, cid: string, turns: seq<Turn>, i: nat)
    requires i < |turns|
  {
    var t := turns[i];
    && t.index == i && t.response == env.generate(i).response && t.response.WantsTools()
    && Answers(env, cid, t.results, t.response.toolCalls, |ReachingIn(env, cid, turns[..i])|)
    && (t.effectful <==> Wrote(env, ReachingIn(env, cid, turns[..i + 1])))
  }

  ghost predicate TurnsSound(env: Env, cid: string, turns: seq<Turn>) {
    forall i :: 0 <= i < |turns| ==> TurnSound(env, cid, turns, i)
  }

  /** Request i carried everything said before turn i and nothing else. */
  ghost predicate RequestsExtend(opening: seq<Message>, turns: seq<Turn>, requests: seq<seq<Message>>) {
    && |turns| <= |requests| <= |turns| + 1
    && forall i :: 0 <= i < |requests| ==> requests[i] == opening + Replay(turns[..i])
  }

  ghost predicate WithinCost(env: Env, policy: Policy, n: nat) {
    forall i :: 1 <= i < n ==> !policy.Exceeded(Cost(env, UsageOf(env, i)))
  }

  ghost predicate Kept(env: Env, req: Request, policy: Policy, l: Loop) {
    && |l.turns| == |l.requests| <= policy.Iterations()
    && l.usage == UsageOf(env, |l.turns|)
    && l.cost == Cost(env, l.usage)
    && l.messages == Opening(req) + Replay(l.turns)
    && RequestsExtend(Opening(req), l.turns, l.requests)
    && TurnsSound(env, req.correlationID, l.turns)
    && l.asked == ReachingIn(env, req.correlationID, l.turns)
    && WentThrough(env, 0, |l.asked|)
    && (l.effects <==> Wrote(env, l.asked))
    && WithinCost(env, policy, |l.turns|)
  }

  /** The runner broke on its last call. */
  predicate RunnerBroke(env: Env, asked: seq<ToolCall>) {
    |asked| > 0 && env.run(|asked| - 1).Broke?
  }

  /** The turns whose calls were answered: all of them but a last one that gave the answer. */
  function AnsweredTurns(e: Ended): seq<Turn> {
    if e.err.None? && |e.convo.turns| > 0 then e.convo.turns[..|e.convo.turns| - 1] else e.convo.turns
  }

  /**
   * One request a turn and at most Iterations(), each the whole transcript so far; usage summed over the
   * calls made; no call made past the cost bound; effects flagged exactly when a Write tool was run.
   */
  ghost predicate Traffic(env: Env, req: Request, policy: Policy, e: Ended) {
    var turns, n := AnsweredTurns(e), |e.requests|;
    && n <= policy.Iterations()
    && RequestsExtend(Opening(req), turns, e.requests)
    && TurnsSound(env, req.correlationID, turns)
    && e.convo.usage == UsageOf(env, n) && e.convo.costUSD == Cost(env, e.convo.usage)
    && WithinCost(env, policy, n)
    && WentThrough(env, 0, |e.asked| - (if RunnerBroke(env, e.asked) then 1 else 0))
    && (e.convo.effects <==> Wrote(env, e.asked))
  }

  /** The model answered: its last reply closes the transcript, and every runnable call has been run. */
  ghost predicate AnswerEnding(env: Env, req: Request, e: Ended) {
    var turns, n := AnsweredTurns(e), |e.requests|;
    && n == |e.convo.turns| == |turns| + 1
    && var reply := env.generate(n - 1);
       && reply.err.None? && !reply.response.WantsTools()
       && e.convo.content == reply.response.content
       && e.convo.turns[n - 1] == Turn(n - 1, reply.response, [], false)
       && e.convo.messages == Opening(req) + Replay(turns)
          + [Message(Assistant, e.convo.content, [], [], reply.response.reasoning)]
       && e.asked == ReachingIn(env, req.correlationID, turns)
  }

  /** The runner broke: the transcript ends on the question it broke over, and the calls before it were run. */
  ghost predicate DanglingEnding(env: Env, req: Request, e: Ended) {
    var turns, n := AnsweredTurns(e), |e.requests|;
    && n == |turns| + 1
    && var question := env.generate(n - 1).response;
       var before := ReachingIn(env, req.correlationID, turns);
       && e.convo.messages == Opening(req) + Replay(turns) + [Asking(question)]
       && before < e.asked <= before + Reaching(env, req.correlationID, question.toolCalls)
  }

  /** A model failure or a bound: every question has its answers. */
  ghost predicate AnsweredEnding(env: Env, req: Request, e: Ended) {
    && e.convo.messages == Opening(req) + Replay(AnsweredTurns(e))
    && e.asked == ReachingIn(env, req.correlationID, AnsweredTurns(e))
  }

  /**
   * The protocol a finished conversation has followed. It ends on a dangling question exactly when the
   * runner broke; an error after a Write tool has run says so, and before one it is the cause alone.
   */
  ghost predicate Protocol(env: Env, req: Request, policy: Policy, e: Ended) {
    && Traffic(env, req, policy, e)
    && (if e.err.None? then AnswerEnding(env, req, e) && !RunnerBroke(env, e.asked)
        else if RunnerBroke(env, e.asked) then DanglingEnding(env, req, e) && Is(e.err.value, ToolFailed)
        else AnsweredEnding(env, req, e))
    && (e.err.Some? ==> EndingError(env, e))
  }

  ghost predicate EndingError(env: Env, e: Ended)
    requires e.err.Some?
  {
    var n := |e.requests|;
    exists cause ::
      && e.err.value == (if e.convo.effects then Joined(Leaf(EffectsCommitted), cause) else cause)
      && (|| cause == Leaf(ToolLoop)
          || cause == Leaf(ToolFailed)
          || (n > 0 && env.generate(n - 1).err == Some(cause)))
  }

  lemma OneMoreTurn(env: Env, cid: string, turns: seq<Turn>, t: Turn)
    ensures Replay(turns + [t]) == Replay(turns) + [Asking(t.response), Answering(t.results)]
    ensures ReachingIn(env, cid, turns + [t]) == ReachingIn(env, cid, turns) + Reaching(env, cid, t.response.toolCalls)
  {
    hide Reaching;
    assert (turns + [t])[..|turns|] == turns;
  }

  lemma TurnsSoundOneMore(env: Env, cid: string, turns: seq<Turn>, t: Turn)
    requires TurnsSound(env, cid, turns)
    requires t.index == |turns| && t.response == env.generate(|turns|).response && t.response.WantsTools()
    requires Answers(env, cid, t.results, t.response.toolCalls, |ReachingIn(env, cid, turns)|)
    requires t.effectful <==> Wrote(env, ReachingIn(env, cid, turns + [t]))
    ensures TurnsSound(env, cid, turns + [t])
  {
    hide Answers, Wrote, ReachingIn;
    var all := turns + [t];
    forall i | 0 <= i < |all| ensures TurnSound(env, cid, all, i) {
      assert all[..|turns|] == turns && all[..|all|] == all;
      if i < |turns| {
        assert TurnSound(env, cid, turns, i);
        assert all[..i] == turns[..i] && all[..i + 1] == turns[..i + 1];
      }
    }
  }

  lemma RequestsOneMore(opening: seq<Message>, turns: seq<Turn>, requests: seq<seq<Message>>)
    requires |turns| == |requests| && RequestsExtend(opening, turns, requests)
    ensures RequestsExtend(opening, turns, requests + [opening + Replay(turns)])
  {
    hide Replay;
    assert turns[..|turns|] == turns;
  }

  lemma RequestsStand(opening: seq<Message>, turns: seq<Turn>, t: Turn, requests: seq<seq<Message>>)
    requires |requests| == |turns| + 1 && RequestsExtend(opening, turns, requests)
    ensures RequestsExtend(opening, turns + [t], requests)
  {
    hide Replay;
    forall i | 0 <= i < |requests| ensures requests[i] == opening + Replay((turns + [t])[..i]) {
      assert (turns + [t])[..i] == turns[..i];
    }
  }

  lemma TurnExtendsTranscript(env: Env, req: Request, policy: Policy, l: Loop, t: Turn)
    requires Kept(env, req, policy, l)
    ensures l.messages + [Asking(t.response)] + [Answering(t.results)] == Opening(req) + Replay(l.turns + [t])
    ensures RequestsExtend(Opening(req), l.turns + [t], l.requests + [l.messages])
  {
    OneMoreTurn(env, req.correlationID, l.turns, t);
    RequestsOneMore(Opening(req), l.turns, l.requests);
    RequestsStand(Opening(req), l.turns, t, l.requests + [l.messages]);
    hide Wrote, Replay, ReachingIn, TurnsSound, RequestsExtend, WithinCost, WentThrough, Opening, Cost;
    assert l.messages + [Asking(t.response)] + [Answering(t.results)]
        == Opening(req) + (Replay(l.turns) + [Asking(t.response), Answering(t.results)]);
  }

  /** A full turn, whatever it cost, leaves the loop as it should be. */
  lemma TurnKeeps(env: Env, req: Request, policy: Policy, l: Loop, b: Batch)
    requires Kept(env, req, policy, l) && |l.turns| < policy.Iterations()
    requires WithinCost(env, policy, |l.turns| + 1)
    requires env.generate(|l.turns|).response.WantsTools() && b.err.None?
    requires BatchSound(env, req.correlationID, env.generate(|l.turns|).response.toolCalls, |l.asked|, b)
    ensures var res := env.generate(|l.turns|).response;
            Kept(env, req, policy, Filed(AfterCalls(Asked(env, l), res, b), res, b.results))
  {
    hide Reaching, Answers, Opening, Replay, WithinCost, Cost, RequestsExtend;
    var cid, res := req.correlationID, env.generate(|l.turns|).response;
    var t := Turn(|l.turns|, res, b.results, l.effects || b.effects);
    TurnExtendsTranscript(env, req, policy, l, t);
    WroteJoined(env, l.asked, b.asked);
    ThroughJoined(env, |l.asked|, |b.asked|);
    hide Wrote, WentThrough;
    OneMoreTurn(env, cid, l.turns, t);
    hide ReachingIn;
    TurnsSoundOneMore(env, cid, l.turns, t);
    hide TurnsSound;
  }

  lemma AbortedProperly(env: Env, req: Request, policy: Policy, l: Loop)
    requires Kept(env, req, policy, l)
    ensures Protocol(env, req, policy, Abort(l, Leaf(ToolLoop)))
  {
    hide Wrote, Replay, ReachingIn, TurnsSound, RequestsExtend, WithinCost, Cost;
    var e := Abort(l, Leaf(ToolLoop));
    assert EndingError(env, e);
  }

  lemma FailedProperly(env: Env, req: Request, policy: Policy, l: Loop)
    requires Kept(env, req, policy, l) && |l.turns| < policy.Iterations() && env.generate(|l.turns|).err.Some?
    requires WithinCost(env, policy, |l.turns| + 1)
    ensures Protocol(env, req, policy, Abort(Asked(env, l), env.generate(|l.turns|).err.value))
  {
    RequestsOneMore(Opening(req), l.turns, l.requests);
    hide Wrote, Replay, ReachingIn, TurnsSound, RequestsExtend, WithinCost, Cost;
    var e := Abort(Asked(env, l), env.generate(|l.turns|).err.value);
    assert EndingError(env, e);
  }

  lemma FinishedProperly(env: Env, req: Request, policy: Policy, l: Loop)
    requires Kept(env, req, policy, l) && |l.turns| < policy.Iterations() && env.generate(|l.turns|).err.None?
    requires WithinCost(env, policy, |l.turns| + 1)
    requires !env.generate(|l.turns|).response.WantsTools()
    ensures Protocol(env, req, policy, Finished(Asked(env, l), env.generate(|l.turns|).response))
  {
    RequestsOneMore(Opening(req), l.turns, l.requests);
    hide Wrote, Replay, ReachingIn, TurnsSound, RequestsExtend, WithinCost, Cost;
    var e := Finished(Asked(env, l), env.generate(|l.turns|).response);
    assert e.convo.turns[..|l.turns|] == l.turns;
  }

  lemma PrefixJoined<T>(a: seq<T>, b: seq<T>, c: seq<T>)
    requires b != [] && b <= c
    ensures a < a + b <= a + c
  {
  }

  lemma ThroughJoined(env: Env, k: nat, n: nat)
    requires WentThrough(env, 0, k) && WentThrough(env, k, n)
    ensures WentThrough(env, 0, k + n)
  {
  }

  /** The state in which the runner has broken over a turn's calls. */
  ghost predicate Breaks(env: Env, req: Request, policy: Policy, l: Loop, b: Batch) {
    var res := env.generate(|l.turns|).response;
    && Kept(env, req, policy, l) && |l.turns| < policy.Iterations() && WithinCost(env, policy, |l.turns| + 1)
    && res.WantsTools() && b.err.Some? && BatchSound(env, req.correlationID, res.toolCalls, |l.asked|, b)
  }

  function BrokenOff(env: Env, l: Loop, b: Batch): Ended
    requires b.err.Some?
  {
    Abort(AfterCalls(Asked(env, l), env.generate(|l.turns|).response, b), b.err.value)
  }

  lemma BrokenTraffic(env: Env, req: Request, policy: Policy, l: Loop, b: Batch)
    requires Breaks(env, req, policy, l, b)
    ensures Traffic(env, req, policy, BrokenOff(env, l, b)) && RunnerBroke(env, BrokenOff(env, l, b).asked)
  {
    hide Reaching, Answers, Opening, Replay, ReachingIn, TurnsSound, WithinCost, Cost;
    WroteJoined(env, l.asked, b.asked);
    hide Wrote;
    ThroughJoined(env, |l.asked|, |b.asked| - 1);
    hide WentThrough;
    RequestsOneMore(Opening(req), l.turns, l.requests);
    hide RequestsExtend;
  }

  lemma BrokenDangles(env: Env, req: Request, policy: Policy, l: Loop, b: Batch)
    requires Breaks(env, req, policy, l, b)
    ensures DanglingEnding(env, req, BrokenOff(env, l, b))
  {
    hide Reaching, Answers, Opening, Replay, ReachingIn, TurnsSound, WithinCost, Cost, RequestsExtend, WentThrough, Wrote;
    PrefixJoined(l.asked, b.asked, Reaching(env, req.correlationID, env.generate(|l.turns|).response.toolCalls));
  }

  lemma BrokeProperly(env: Env, req: Request, policy: Policy, l: Loop, b: Batch)
    requires Breaks(env, req, policy, l, b)
    ensures Protocol(env, req, policy, BrokenOff(env, l, b))
  {
    BrokenTraffic(env, req, policy, l, b);
    BrokenDangles(env, req, policy, l, b);
    hide Traffic, DanglingEnding, Kept, WithinCost, Wrote, Reaching, WentThrough;
    assert EndingError(env, BrokenOff(env, l, b));
  }

  lemma {:induction false} LoopFollowsProtocol(env: Env, req: Request, policy: Policy, l: Loop)
    requires Kept(env, req, policy, l) && WithinCost(env, policy, |l.turns| + 1)
    ensures Protocol(env, req, policy, From(env, req, policy, l))
    decreases policy.Iterations() - |l.turns|
  {
    hide Kept, Protocol, RunAll, BatchSound, WithinCost, Cost;
    if |l.turns| >= policy.Iterations() {
      AbortedProperly(env, req, policy, l);
    } else {
      var reply := env.generate(|l.turns|);
      var res := reply.response;
      assert |l.asked| == |Asked(env, l).asked|;
      if reply.err.Some? {
        FailedProperly(env, req, policy, l);
      } else if !res.WantsTools() {
        FinishedProperly(env, req, policy, l);
      } else if RunAll(env, req.correlationID, res.toolCalls, |l.asked|).err.Some? {
        var b := RunAll(env, req.correlationID, res.toolCalls, |l.asked|);
        BatchIsSound(env, req.correlationID, res.toolCalls, |l.asked|);
        BrokeProperly(env, req, policy, l, b);
      } else {
        var b := RunAll(env, req.correlationID, res.toolCalls, |l.asked|);
        var l3 := Filed(AfterCalls(Asked(env, l), res, b), res, b.results);
        BatchIsSound(env, req.correlationID, res.toolCalls, |l.asked|);
        TurnKeeps(env, req, policy, l, b);
        if policy.Exceeded(l3.cost) {
          AbortedProperly(env, req, policy, l3);
        } else {
          CostKept(env, req, policy, l3);
          LoopFollowsProtocol(env, req, policy, l3);
        }
      }
    }
  }

  lemma CostKept(env: Env, req: Request, policy: Policy, l: Loop)
    requires Kept(env, req, policy, l) && !policy.Exceeded(l.cost)
    ensures WithinCost(env, policy, |l.turns| + 1)
  {
    hide TurnsSound, RequestsExtend, Wrote, WentThrough;
  }

  /** Every conversation that gets past its two opening checks follows the protocol. */
  lemma ConversationFollowsProtocol(env: Env, req: Request, policy: Policy)
    requires env.toolsSupported && |env.specs| > 0
    ensures Protocol(env, req, policy, Conversing(env, req, policy))
  {
    var l := Begin(req);
    assert Opening(req) + Replay([]) == Opening(req);
    LoopFollowsProtocol(env, req, policy, l);
  }

  /**
   * Effects reach the retry decision: the flag is up exactly when the runner was handed a call of a known
   * Write tool whose arguments conform; an error after that carries EffectsCommitted together with its
   * cause; and an error the platform would retry means no Write tool ran in any turn.
   */
  lemma EffectsReachTheRetryDecision(env: Env, req: Request, policy: Policy)
    ensures var e := Conversing(env, req, policy);
            && (e.convo.effects <==> Wrote(env, e.asked))
            && (e.err.Some? && e.convo.effects ==> Is(e.err.value, EffectsCommitted))
            && (Retryable(e.err) ==> !Wrote(env, e.asked))
  {
    hide Protocol, From, Wrote;
    if env.toolsSupported && |env.specs| > 0 {
      ConversationFollowsProtocol(env, req, policy);
      ProtocolMarksEffects(env, req, policy, Conversing(env, req, policy));
    } else {
      NothingWritten(env);
    }
  }

  lemma NothingWritten(env: Env)
    ensures !Wrote(env, [])
  {
  }

  lemma ProtocolMarksEffects(env: Env, req: Request, policy: Policy, e: Ended)
    requires Protocol(env, req, policy, e)
    ensures e.convo.effects <==> Wrote(env, e.asked)
    ensures e.err.Some? && e.convo.effects ==> Is(e.err.value, EffectsCommitted)
  {
    hide Wrote, Replay, ReachingIn, TurnsSound, RequestsExtend, WithinCost, Cost, WentThrough, Reaching;
  }

  /** Known, conforming to its schema, and carrying the key derived from it. */
  ghost predicate Checked(env: Env, cid: string, c: ToolCall) {
    var spec := Lookup(env.specs, c.name);
    && spec.Some? && Conforms(spec.value.schema, c.arguments, env.reader)
    && c.key == env.digest(KeyInput(cid, c.name, c.arguments, env.reader.norm))
  }

  lemma {:induction false} ReachingIsChecked(env: Env, cid: string, calls: seq<ToolCall>)
    ensures forall c :: c in Reaching(env, cid, calls) ==> Checked(env, cid, c)
  {
    if calls != [] {
      var init, last := calls[..|calls| - 1], calls[|calls| - 1];
      ReachingIsChecked(env, cid, init);
      if Runnable(env, last) {
        ValidationIsExact(Lookup(env.specs, last.name).value.schema, last.arguments, env.reader);
      }
      hide Verdict, Conforms, KeyInput;
    }
  }

  lemma {:induction false} ReachingInIsChecked(env: Env, cid: string, turns: seq<Turn>)
    ensures forall c :: c in ReachingIn(env, cid, turns) ==> Checked(env, cid, c)
  {
    if turns != [] {
      ReachingInIsChecked(env, cid, turns[..|turns| - 1]);
      ReachingIsChecked(env, cid, turns[|turns| - 1].response.toolCalls);
      hide Checked, Reaching;
    }
  }

  /** Whatever the model asks for, the runner is only handed known tools, conforming arguments, derived keys. */
  lemma EveryRunIsChecked(env: Env, req: Request, policy: Policy)
    ensures var e := Conversing(env, req, policy);
            forall c :: c in e.asked ==> Checked(env, req.correlationID, c)
  {
    hide Protocol, From, Checked;
    var e := Conversing(env, req, policy);
    if env.toolsSupported && |env.specs| > 0 {
      ConversationFollowsProtocol(env, req, policy);
      ProtocolRunsReaching(env, req, policy, e);
    }
  }

  lemma ProtocolRunsReaching(env: Env, req: Request, policy: Policy, e: Ended)
    requires Protocol(env, req, policy, e)
    ensures forall c :: c in e.asked ==> Checked(env, req.correlationID, c)
  {
    hide Wrote, Replay, ReachingIn, TurnsSound, RequestsExtend, WithinCost, Cost, WentThrough, Reaching, Checked, EndingError;
    var cid := req.correlationID;
    var turns := AnsweredTurns(e);
    ReachingInIsChecked(env, cid, turns);
    if |e.requests| > 0 {
      ReachingIsChecked(env, cid, env.generate(|e.requests| - 1).response.toolCalls);
    }
  }
}
