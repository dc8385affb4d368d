/**
 The OpenAI tool-turn loop: one request, then follow-ups that answer every call of
 the previous turn with "recorded", until the closing tool is called, a turn makes
 no call, or the turns are used up. The provider is the injected `send`.
 */
module ToolTurns {
  import opened Options
  import opened JsonValues
  import opened Cost

  // ----- The wire ---------------------------------------------------------------------------------------

  datatype Arguments = Missing | Text(text: string) | Given(v: Value)

  /** An output item: a function call, or any other thing. */
  datatype Item = FunctionCall(name: Option<string>, callId: Option<string>, arguments: Arguments) | OtherItem

  datatype RawUsage = RawUsage(input: Option<nat>, output: Option<nat>, cached: Option<nat>, reasoning: Option<nat>)

  /** `output` is None when it is not an array. */
  datatype Response = Response(id: Option<string>, output: Option<seq<Item>>, usage: Option<RawUsage>)

  datatype Call = Call(name: string, args: Value, turn: Option<nat>)
  datatype CallOutput = CallOutput(callId: string, output: string)

  datatype Request = Request(model: string, tools: Value, toolChoice: Value, parallel: Value,
      reasoning: Option<Value>, rest: Value)

  datatype Body =
    | First(request: Request)
    | FollowUp(model: string, previousId: string, input: seq<CallOutput>,
               tools: Value, toolChoice: Value, parallel: Value, reasoning: Option<Value>)

  datatype Continuation = Continuation(untilTool: string, maxTurns: int)

  const CONTINUATION_RESULT := "recorded"

  function TokensOf(n: Option<nat>): nat {
    if n.Some? then n.value else 0
  }

  function UsageOf(r: Response): OpenAiUsage {
    if r.usage.None? then NO_USAGE
    else OpenAiUsage(TokensOf(r.usage.value.input), TokensOf(r.usage.value.output),
                     TokensOf(r.usage.value.cached), TokensOf(r.usage.value.reasoning))
  }

  function TextOf(s: Option<string>): string {
    if s.Some? then s.value else ""
  }

  /** JSON text is parsed; text that is not JSON is handed through; nothing at all is an empty object. */
  function ArgsOf(a: Arguments, parse: string -> Option<Value>): Value {
    var args := match a
                case Missing => NULL
                case Given(v) => v
                case Text(text) => if parse(text).Some? then parse(text).value else Lit(Str(text));
    if args == NULL then Obj(map[]) else args
  }

  /** callsFromOpenAiOutput: the function calls, in order. */
  function CallsIn(items: seq<Item>, turn: Option<nat>, parse: string -> Option<Value>): seq<Call> {
    if items == [] then []
    else
      var head := if items[0].FunctionCall?
                  then [Call(TextOf(items[0].name), ArgsOf(items[0].arguments, parse), turn)] else [];
      head + CallsIn(items[1..], turn, parse)
  }

  /** continuationInput: one answer per function call, in order, keyed by its call id. */
  function Answers(items: seq<Item>): seq<CallOutput> {
    if items == [] then []
    else
      var head := if items[0].FunctionCall? then [CallOutput(TextOf(items[0].callId), CONTINUATION_RESULT)] else [];
      head + Answers(items[1..])
  }

  function ItemsOf(r: Response): seq<Item> {
    if r.output.Some? then r.output.value else []
  }

  predicate CallsTool(calls: seq<Call>, tool: string) {
    exists i :: 0 <= i < |calls| && calls[i].name == tool
  }

  // ----- The exchange, turn by turn ------------------------------------------------------------------------

  /** The loop's parameters, in one value. */
  datatype Exchange = Exchange(
    first: Request, continuation: Option<Continuation>,
    send: (nat, Body) -> Response, parse: string -> Option<Value>)
  {
    /** The body of request `k`, and the provider's answer to it. */
    function BodyAt(k: nat): Body
      decreases k, 0
    {
      if k == 0 then First(first)
      else FollowUpTo(AnswerAt(k - 1))
    }

    function AnswerAt(k: nat): Response
      decreases k, 1
    {
      send(k, BodyAt(k))
    }

    function FollowUpTo(r: Response): Body {
      FollowUp(first.model, TextOf(r.id), Answers(ItemsOf(r)), first.tools, first.toolChoice, first.parallel,
          first.reasoning)
    }

    /** A call carries its turn only when a continuation rule is set. */
    function CallsOf(k: nat, r: Response): seq<Call> {
      CallsIn(ItemsOf(r), if continuation.Some? then Some(k + 1) else None, parse)
    }

    predicate Done(k: nat, r: Response) {
      || continuation.None?
      || CallsOf(k, r) == []
      || CallsTool(CallsOf(k, r), continuation.value.untilTool)
      || k + 1 >= continuation.value.maxTurns
      || TextOf(r.id) == ""
    }

    /** What the first `n` turns add up to. */
    function AllCalls(n: nat): seq<Call> {
      if n == 0 then [] else AllCalls(n - 1) + CallsOf(n - 1, AnswerAt(n - 1))
    }

    function AllOutput(n: nat): seq<Item> {
      if n == 0 then [] else AllOutput(n - 1) + ItemsOf(AnswerAt(n - 1))
    }

    function AllUsage(n: nat): (r: seq<OpenAiUsage>)
      ensures |r| == n
    {
      if n == 0 then [] else AllUsage(n - 1) + [UsageOf(AnswerAt(n - 1))]
    }

    function UpTo(n: nat): Outcome {
      Outcome(AllOutput(n), AllCalls(n), Sum(AllUsage(n), n), n)
    }
  }

  datatype Outcome = Outcome(output: seq<Item>, calls: seq<Call>, usage: OpenAiUsage, turns: nat)

  ghost predicate GoesOn(x: Exchange, n: nat) {
    forall k: nat :: k < n ==> !x.Done(k, x.AnswerAt(k))
  }

  /** The first turn that is done ends the exchange; what comes back is everything up to it. */
  ghost predicate EndsAt(x: Exchange, o: Outcome) {
    && o.turns >= 1
    && x.Done(o.turns - 1, x.AnswerAt(o.turns - 1))
    && GoesOn(x, o.turns - 1)
    && o == x.UpTo(o.turns)
  }

  function TurnLimit(x: Exchange): nat {
    if x.continuation.Some? && x.continuation.value.maxTurns > 1 then x.continuation.value.maxTurns else 1
  }

  method RunOpenAiToolTurns(x: Exchange) returns (o: Outcome)
    ensures EndsAt(x, o)
    ensures o.turns <= TurnLimit(x)
  {
    var usage := NO_USAGE;
    var output, calls := [], [];
    var body := First(x.first);
    var turns := 0;
    while true
      invariant turns < TurnLimit(x)
      invariant body == x.BodyAt(turns)
      invariant GoesOn(x, turns)
      invariant Outcome(output, calls, usage, turns) == x.UpTo(turns)
      decreases TurnLimit(x) - turns
    {
      var data := x.send(turns, body);
      TurnAdds(x, turns);
      usage := Add(usage, UsageOf(data));
      output := output + ItemsOf(data);
      var turnCalls := x.CallsOf(turns, data);
      calls := calls + turnCalls;
      var done := x.Done(turns, data);
      turns := turns + 1;
      if done {
        return Outcome(output, calls, usage, turns);
      }
      body := x.FollowUpTo(data);
    }
  }

  /** One more turn. */
  lemma TurnAdds(x: Exchange, n: nat)
    ensures var data := x.send(n, x.BodyAt(n));
            x.UpTo(n + 1) == Outcome(x.AllOutput(n) + ItemsOf(data), x.AllCalls(n) + x.CallsOf(n, data),
                                     Add(Sum(x.AllUsage(n), n), UsageOf(data)), n + 1)
  {
    SumExtends(x.AllUsage(n), UsageOf(x.AnswerAt(n)));
  }

  lemma SumExtends(us: seq<OpenAiUsage>, u: OpenAiUsage)
    ensures Sum(us + [u], |us| + 1) == Add(Sum(us, |us|), u)
  {
    SumPrefix(us, us + [u], |us|);
  }

  lemma {:induction false} SumPrefix(us: seq<OpenAiUsage>, vs: seq<OpenAiUsage>, n: nat)
    requires n <= |us| && us <= vs
    ensures Sum(us, n) == Sum(vs, n)
  {
    if n > 0 {
      SumPrefix(us, vs, n - 1);
    }
  }

  // ----- What the exchange keeps -----------------------------------------------------------------------------

  lemma NotDoneBefore(x: Exchange, o: Outcome, k: nat)
    requires EndsAt(x, o) && k < o.turns - 1
    ensures !x.Done(k, x.AnswerAt(k))
  {
  }

  /** There is one such outcome: where it stops and what it returns are fixed by the provider's answers. */
  lemma OutcomeUnique(x: Exchange, o: Outcome, p: Outcome)
    requires EndsAt(x, o) && EndsAt(x, p)
    ensures o == p
  {
    var oEnd: nat, pEnd: nat := o.turns - 1, p.turns - 1;
    if oEnd < pEnd {
      NotDoneBefore(x, p, oEnd);
    } else if pEnd < oEnd {
      NotDoneBefore(x, o, pEnd);
    }
  }

  /** One turn without a continuation, and never more than the limit. */
  lemma TurnsBounded(x: Exchange, o: Outcome)
    requires EndsAt(x, o)
    ensures x.continuation.None? ==> o.turns == 1
    ensures x.continuation.Some? && o.turns > 1 ==> o.turns <= x.continuation.value.maxTurns
  {
    if o.turns > 1 {
      NotDoneBefore(x, o, o.turns - 2);
    }
  }

  // ----- Where it stops and what it returns, by the items of the answers ----------------------------------------

  /** An item that calls the tool of this name; a call without a name counts as one of the empty name. */
  predicate CallsNamed(item: Item, tool: string) {
    item.FunctionCall? && (item.name == Some(tool) || (item.name.None? && tool == ""))
  }

  /** The items of an answer: none, unless its output is a list. */
  predicate HasItem(r: Response, i: nat) {
    r.output.Some? && i < |r.output.value|
  }

  /** What a follow-up needs: a rule, a call, none of the closing tool, a turn left, and a response to name. */
  ghost predicate AsksAgain(x: Exchange, k: nat) {
    var r := x.AnswerAt(k);
    && x.continuation.Some? && k + 1 < x.continuation.value.maxTurns
    && r.id.Some? && r.id.value != ""
    && (exists i: nat :: HasItem(r, i) && r.output.value[i].FunctionCall?)
    && (forall i: nat :: HasItem(r, i) ==> !CallsNamed(r.output.value[i], x.continuation.value.untilTool))
  }

  /** The arguments as they were given: parsed if they are JSON text, an empty object for nothing or null. */
  predicate Carries(args: Value, a: Arguments, parse: string -> Option<Value>) {
    match a
    case Missing => args == Obj(map[])
    case Given(v) => if v == Lit(Null) then args == Obj(map[]) else args == v
    case Text(text) =>
      match parse(text)
      case None => args == Lit(Str(text))
      case Some(v) => if v == Lit(Null) then args == Obj(map[]) else args == v
  }

  predicate IsCallOf(call: Call, item: Item, turn: Option<nat>, parse: string -> Option<Value>) {
    && CallsNamed(item, call.name) && call.turn == turn && Carries(call.args, item.arguments, parse)
  }

  /** `at` are the positions, from `start` on, of the function calls among the items, and `calls` what they call. */
  ghost predicate CallsAt(items: seq<Item>, start: nat, calls: seq<Call>, at: seq<nat>, turn: Option<nat>,
                          parse: string -> Option<Value>)
  {
    && |at| == |calls|
    && (forall i, j :: 0 <= i < j < |at| ==> at[i] < at[j])
    && (forall i :: 0 <= i < |at| ==> start <= at[i] < |items| && IsCallOf(calls[i], items[at[i]], turn, parse))
    && (forall p :: start <= p < |items| && items[p].FunctionCall? ==> p in at)
  }

  lemma {:induction false} CallsFound(items: seq<Item>, start: nat, turn: Option<nat>, parse: string -> Option<Value>)
    returns (at: seq<nat>)
    requires start <= |items|
    ensures CallsAt(items, start, CallsIn(items[start..], turn, parse), at, turn, parse)
    decreases |items| - start
  {
    at := [];
    if start < |items| {
      var rest := CallsFound(items, start + 1, turn, parse);
      assert items[start..][1..] == items[start + 1..];
      if items[start].FunctionCall? {
        at := [start] + rest;
        HeadCall(items, start, rest, turn, parse);
      } else {
        at := rest;
      }
    }
  }

  lemma HeadCall(items: seq<Item>, start: nat, rest: seq<nat>, turn: Option<nat>, parse: string -> Option<Value>)
    requires start < |items| && items[start].FunctionCall? && items[start..][1..] == items[start + 1..]
    requires CallsAt(items, start + 1, CallsIn(items[start + 1..], turn, parse), rest, turn, parse)
    ensures CallsAt(items, start, CallsIn(items[start..], turn, parse), [start] + rest, turn, parse)
  {
    var calls, more := CallsIn(items[start..], turn, parse), CallsIn(items[start + 1..], turn, parse);
    assert calls == [calls[0]] + more;
    CallOfItem(items[start..], turn, parse);
    Prepended(items, start, calls[0], more, rest, turn, parse);
  }

  lemma CallOfItem(items: seq<Item>, turn: Option<nat>, parse: string -> Option<Value>)
    requires items != [] && items[0].FunctionCall?
    ensures CallsIn(items, turn, parse) != [] && IsCallOf(CallsIn(items, turn, parse)[0], items[0], turn, parse)
  {
  }

  lemma Prepended(items: seq<Item>, start: nat, first: Call, more: seq<Call>, rest: seq<nat>, turn: Option<nat>,
                  parse: string -> Option<Value>)
    requires start < |items| && items[start].FunctionCall? && IsCallOf(first, items[start], turn, parse)
    requires CallsAt(items, start + 1, more, rest, turn, parse)
    ensures CallsAt(items, start, [first] + more, [start] + rest, turn, parse)
  {
    var at := [start] + rest;
    forall p | start <= p < |items| && items[p].FunctionCall? ensures p in at {
      assert p > start ==> p in rest;
    }
  }

  /** Where the turn's calls begin among all calls. */
  function CallsBefore(x: Exchange, k: nat): nat {
    |x.AllCalls(k)|
  }

  lemma {:induction false} AllExtends(x: Exchange, k: nat, n: nat)
    requires k < n
    ensures CallsBefore(x, k) + |x.CallsOf(k, x.AnswerAt(k))| <= |x.AllCalls(n)|
    ensures |x.AllOutput(k)| + |ItemsOf(x.AnswerAt(k))| <= |x.AllOutput(n)|
    ensures x.AllCalls(n)[CallsBefore(x, k)..][..|x.CallsOf(k, x.AnswerAt(k))|] == x.CallsOf(k, x.AnswerAt(k))
    ensures x.AllOutput(n)[|x.AllOutput(k)|..][..|ItemsOf(x.AnswerAt(k))|] == ItemsOf(x.AnswerAt(k))
  {
    if k < n - 1 {
      AllExtends(x, k, n - 1);
    }
  }

  /**
   Main result about the calls: those of turn k+1 stand together, after those of the turns
   before it, and they are exactly the function calls among that answer's items, in order,
   each with its item's name and arguments, and stamped with the turn under a continuation.
   */
  lemma CallsReturned(x: Exchange, o: Outcome, k: nat) returns (first: nat, at: seq<nat>)
    requires EndsAt(x, o) && k < o.turns
    ensures var r := x.AnswerAt(k);
            && first == CallsBefore(x, k) && first + |at| == CallsBefore(x, k + 1) <= |o.calls|
            && CallsAt(if r.output.Some? then r.output.value else [], 0, o.calls[first..][..|at|], at,
                       if x.continuation.Some? then Some(k + 1) else None, x.parse)
  {
    AllExtends(x, k, o.turns);
    first := CallsBefore(x, k);
    assert ItemsOf(x.AnswerAt(k))[0..] == ItemsOf(x.AnswerAt(k));
    at := CallsFound(ItemsOf(x.AnswerAt(k)), 0, if x.continuation.Some? then Some(k + 1) else None, x.parse);
    if k + 1 < o.turns {
      AllExtends(x, k + 1, o.turns);
    }
  }

  /** All of the calls, and no other: the turns' calls one after another. */
  lemma CallsComplete(x: Exchange, o: Outcome)
    requires EndsAt(x, o)
    ensures CallsBefore(x, 0) == 0 && CallsBefore(x, o.turns) == |o.calls|
  {
  }

  lemma DoneIff(x: Exchange, k: nat)
    ensures x.Done(k, x.AnswerAt(k)) <==> !AsksAgain(x, k)
  {
    var r := x.AnswerAt(k);
    var turn := if x.continuation.Some? then Some(k + 1) else None;
    assert ItemsOf(r)[0..] == ItemsOf(r);
    var at := CallsFound(ItemsOf(r), 0, turn, x.parse);
    var calls := x.CallsOf(k, r);
    if calls != [] {
      assert HasItem(r, at[0]) && r.output.value[at[0]].FunctionCall?;
    }
    if i: nat :| HasItem(r, i) && r.output.value[i].FunctionCall? {
      assert i in at;
    }
    if x.continuation.Some? {
      var tool := x.continuation.value.untilTool;
      if i :| 0 <= i < |calls| && calls[i].name == tool {
        assert HasItem(r, at[i]) && CallsNamed(r.output.value[at[i]], tool);
      }
      if p: nat :| HasItem(r, p) && CallsNamed(r.output.value[p], tool) {
        assert p in at;
        var i :| 0 <= i < |at| && at[i] == p;
        assert calls[i].name == tool;
      }
    }
  }

  /**
   Main result about the loop: a turn is followed by another if and only if there is a
   continuation with a turn left, the answer has an id and calls a tool, and none of its
   calls is of the closing tool. So no turn before the last calls it.
   */
  lemma StopsIff(x: Exchange, o: Outcome)
    requires EndsAt(x, o)
    ensures !AsksAgain(x, o.turns - 1) && forall k: nat :: k < o.turns - 1 ==> AsksAgain(x, k)
  {
    DoneIff(x, o.turns - 1);
    forall k: nat | k < o.turns - 1 ensures AsksAgain(x, k) {
      DoneIff(x, k);
      NotDoneBefore(x, o, k);
    }
  }

  /** The output returned is that of every turn, one after another. */
  lemma OutputReturned(x: Exchange, o: Outcome, k: nat)
    requires EndsAt(x, o) && k < o.turns && x.AnswerAt(k).output.Some?
    ensures var start, items := |x.AllOutput(k)|, x.AnswerAt(k).output.value;
            && start + |items| == |x.AllOutput(k + 1)| <= |o.output|
            && o.output[start..][..|items|] == items
    ensures |x.AllOutput(0)| == 0 && |x.AllOutput(o.turns)| == |o.output|
  {
    AllExtends(x, k, o.turns);
  }

  datatype Heading = InputTokens | OutputTokens | CachedTokens | ReasoningTokens

  function Under(u: RawUsage, h: Heading): Option<nat> {
    match h
    case InputTokens => u.input
    case OutputTokens => u.output
    case CachedTokens => u.cached
    case ReasoningTokens => u.reasoning
  }

  /** What an answer reports under a heading; what is not reported counts as nothing. */
  function ReportedBy(r: Response, h: Heading): nat {
    if r.usage.Some? && Under(r.usage.value, h).Some? then Under(r.usage.value, h).value else 0
  }

  function Reported(x: Exchange, n: nat, h: Heading): nat {
    if n == 0 then 0 else Reported(x, n - 1, h) + ReportedBy(x.AnswerAt(n - 1), h)
  }

  predicate SumsUp(x: Exchange, n: nat, sum: OpenAiUsage) {
    && sum.inputTokens == Reported(x, n, InputTokens) && sum.outputTokens == Reported(x, n, OutputTokens)
    && sum.cachedTokens == Reported(x, n, CachedTokens) && sum.reasoningTokens == Reported(x, n, ReasoningTokens)
  }

  lemma UsageReported(r: Response)
    ensures UsageOf(r) == OpenAiUsage(ReportedBy(r, InputTokens), ReportedBy(r, OutputTokens),
                                      ReportedBy(r, CachedTokens), ReportedBy(r, ReasoningTokens))
  {
  }

  lemma {:induction false} UsageUpTo(x: Exchange, n: nat)
    ensures SumsUp(x, n, Sum(x.AllUsage(n), n))
  {
    if n > 0 {
      UsageUpTo(x, n - 1);
      UsageReported(x.AnswerAt(n - 1));
      SumExtends(x.AllUsage(n - 1), UsageOf(x.AnswerAt(n - 1)));
    }
  }

  /** The usage returned is, kind by kind, what the turns report. */
  lemma UsageReturned(x: Exchange, o: Outcome)
    requires EndsAt(x, o)
    ensures SumsUp(x, o.turns, o.usage)
  {
    UsageUpTo(x, o.turns);
  }

  /** The ids of the function calls of an answer, in order. */
  function CallIds(items: seq<Item>): seq<string> {
    if items == [] then []
    else (if items[0].FunctionCall? then [TextOf(items[0].callId)] else []) + CallIds(items[1..])
  }

  lemma {:induction false} AnswersEveryCall(items: seq<Item>, turn: Option<nat>, parse: string -> Option<Value>)
    ensures |Answers(items)| == |CallIds(items)| == |CallsIn(items, turn, parse)|
    ensures forall i :: 0 <= i < |Answers(items)| ==>
              Answers(items)[i] == CallOutput(CallIds(items)[i], "recorded")
  {
    if items != [] {
      AnswersEveryCall(items[1..], turn, parse);
    }
  }

  /**
   Main result: follow-up k+1 names response k and answers exactly its calls, id by id, with
   "recorded" - and re-sends nothing else.
   */
  lemma FollowUpAnswers(x: Exchange, o: Outcome, k: nat)
    requires EndsAt(x, o) && k < o.turns - 1
    ensures var body, r := x.BodyAt(k + 1), x.AnswerAt(k);
            && r.output.Some? && r.id.Some? && body.FollowUp?
            && body == FollowUp(x.first.model, r.id.value, body.input, x.first.tools, x.first.toolChoice,
                                x.first.parallel, x.first.reasoning)
            && |body.input| == |CallIds(r.output.value)| == CallsBefore(x, k + 1) - CallsBefore(x, k) > 0
            && forall i :: 0 <= i < |body.input| ==>
                 body.input[i] == CallOutput(CallIds(r.output.value)[i], "recorded")
    ensures x.BodyAt(0) == First(x.first)
  {
    StopsIff(x, o);
    assert AsksAgain(x, k);
    NotDoneBefore(x, o, k);
    AnswersEveryCall(ItemsOf(x.AnswerAt(k)), Some(k + 1), x.parse);
  }

  lemma {:induction false} TurnStamped(items: seq<Item>, turn: Option<nat>, parse: string -> Option<Value>)
    ensures forall i :: 0 <= i < |CallsIn(items, turn, parse)| ==> CallsIn(items, turn, parse)[i].turn == turn
  {
    if items != [] {
      TurnStamped(items[1..], turn, parse);
    }
  }

  /** With a continuation the calls come back in turn order, each stamped with a turn that was really made. */
  lemma {:induction false} CallsInTurnOrder(x: Exchange, n: nat)
    requires x.continuation.Some?
    ensures forall i :: 0 <= i < |x.AllCalls(n)| ==>
              x.AllCalls(n)[i].turn.Some? && 1 <= x.AllCalls(n)[i].turn.value <= n
    ensures forall i, j :: 0 <= i < j < |x.AllCalls(n)| ==> x.AllCalls(n)[i].turn.value <= x.AllCalls(n)[j].turn.value
  {
    if n > 0 {
      CallsInTurnOrder(x, n - 1);
      TurnStamped(ItemsOf(x.AnswerAt(n - 1)), Some(n), x.parse);
    }
  }

  /**
   Main result: the price of the summed usage is the sum of the turns' prices, as long as the API
   keeps its counting promise.
   */
  lemma TurnsPriceAddsUp(x: Exchange, o: Outcome, rates: CostRates)
    requires EndsAt(x, o)
    requires forall i :: 0 <= i < o.turns ==>
               var u := x.AllUsage(o.turns)[i]; u.cachedTokens <= u.inputTokens && u.reasoningTokens <= u.outputTokens
    ensures Price(rates, o.usage) == TotalPrice(rates, x.AllUsage(o.turns), o.turns)
  {
    PriceAddsUp(rates, x.AllUsage(o.turns));
  }
}
