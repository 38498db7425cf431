// What the owner call loop keeps in every order of events.
module OwnerProperties {
  import opened Prelude
  import opened OwnerPricing
  import opened OwnerCall

  // ----- The cost cap -----

  function Limit(p: Plan): real { if p.cap >= GoodbyeReserve(p) then p.cap else GoodbyeReserve(p) }

  // Money spent plus money promised stays within the limit.
  ghost predicate Covered(p: Plan, ended: bool, f: Flow, cost: real) {
    && 0.0 <= cost <= Limit(p)
    && (!ended ==>
          && (f.goodbyeRequested ==> f.wrap.Some?) && (f.wrap.None? ==> !f.goodbyeAfter)
          && (f.wrap.Some? && !f.goodbyeRequested ==> f.pending && f.goodbyeAfter)
          && (!f.goodbyeRequested ==> cost + GoodbyeReserve(p) <= Limit(p))
          && (f.pending ==> cost + GoodbyeReserve(p) + (if f.goodbyeRequested then 0.0 else ReplyReserve(p)) <= Limit(p)))
  }

  ghost predicate WithinCap(p: Plan, s: Call) { Covered(p, s.over.Some?, s.flow, s.ledger.cost) }

  // response.done comes only while a response is outstanding, and is priced within the
  // reserve that response was admitted under.
  ghost predicate Honest(p: Plan, s: Call, e: Event) {
    e.Done? && e.id != "" && e.id !in s.seen && e.usage.Some? && s.over.None? ==>
      s.flow.pending && UsageCost(e.usage.value) <= if s.flow.goodbyeRequested then GoodbyeReserve(p) else ReplyReserve(p)
  }

  ghost predicate AllHonest(p: Plan, s: Call, inputs: seq<Input>) {
    forall i :: 0 <= i < |inputs| ==> Honest(p, Run(p, s, inputs[..i]), inputs[i].event)
  }

  lemma ReservesAreMoney(p: Plan)
    ensures 0.0 < GoodbyeReserve(p) <= ReplyReserve(p)
  {
  }

  lemma StartGoodbyeKeeps(p: Plan, s: Call, io: Io, why: Reason, otherwise: Reason)
    requires WithinCap(p, s) && s.over.None?
    ensures WithinCap(p, StartGoodbye(s, io, why, otherwise))
  {
    hide Reserve;
    ReservesAreMoney(p);
  }

  lemma RequestKeeps(p: Plan, s: Call, io: Io, otherwise: Reason)
    requires WithinCap(p, s) && s.over.None?
    ensures WithinCap(p, Request(p, s, io, otherwise))
  {
    hide Reserve, SendGoodbye, StartGoodbye;
    ReservesAreMoney(p);
    if s.flow.wrap.None? && OverCap(p, s.ledger.cost) { StartGoodbyeKeeps(p, s, io, CostLimit, otherwise); }
  }

  lemma RunToolKeeps(p: Plan, s: Call, io: Io, response: string, name: string, call: string, search: bool)
    requires WithinCap(p, s) && s.over.None? && (search ==> SearchFits(p, s.ledger.cost))
    ensures WithinCap(p, RunTool(p, s, io, response, name, call, search))
  {
    hide Reserve, Request;
    ReservesAreMoney(p);
    if io.tool.Answered? {
      var kept := if search && !io.tool.refundable then s.ledger.cost + SEARCH_USD else s.ledger.cost;
      assert Covered(p, false, s.flow, kept);
      var u := Send(Send(s, ToolRun(call, name, response)).(ledger := s.ledger.(cost := kept), tools := s.tools.(owed := name, owedResponse := "")),
                    ToolOutput(call));
      RequestKeeps(p, u, io, ToolReplyFailed);
    }
  }

  lemma ToolCallKeeps(p: Plan, s: Call, io: Io, response: string, name: string, call: string, args: Arguments)
    requires WithinCap(p, s) && s.over.None?
    ensures WithinCap(p, OnToolCall(p, s, io, response, name, call, args))
  {
    hide Reserve, RunTool, StartGoodbye;
    var t := s.(tools := s.tools.(run := s.tools.run + {call}));
    StartGoodbyeKeeps(p, t, io, CostLimit, CostLimit);
    if !Searches(name, args) || SearchFits(p, s.ledger.cost) {
      RunToolKeeps(p, t, io, response, name, call, Searches(name, args));
    }
  }

  // A response has just finished and nothing follows it yet.
  ghost predicate Between(p: Plan, s: Call) {
    var f, cost := s.flow, s.ledger.cost;
    && s.over.None? && !f.pending && 0.0 <= cost <= Limit(p)
    && (f.goodbyeRequested ==> f.wrap.Some?)
    && (!f.goodbyeRequested ==> cost + GoodbyeReserve(p) <= Limit(p))
    && (f.wrap.Some? && !f.goodbyeRequested ==> f.goodbyeAfter)
    && (f.wrap.None? ==> !f.goodbyeAfter)
  }

  lemma NextKeeps(p: Plan, s: Call, io: Io, id: string)
    requires Between(p, s)
    ensures WithinCap(p, Next(p, s, io, id))
  {
    hide Reserve, Request, StartGoodbye;
    ReservesAreMoney(p);
    if s.flow.wrap.None? || s.flow.goodbyeRequested {
      StartGoodbyeKeeps(p, s, io, CostLimit, CostLimit);
      RequestKeeps(p, s.(flow := s.flow.(queued := false)), io, RequestFailed);
    }
  }

  lemma DoneKeeps(p: Plan, s: Call, io: Io, id: string, cancelled: bool, usage: Option<Usage>)
    requires WithinCap(p, s) && Honest(p, s, Done(id, cancelled, usage)) && s.over.None?
    ensures WithinCap(p, OnDone(p, s, io, id, cancelled, usage))
  {
    ReservesAreMoney(p);
    if id != "" && id !in s.seen && usage.Some? {
      CachedCountIsTheDiscount(usage.value);
      hide Reserve, UsageCost, CachedCount, Next;
      NextKeeps(p, Finished(s, id, cancelled, Counted(s.ledger, usage.value)), io, id);
    }
  }

  lemma WithinCapStep(p: Plan, s: Call, e: Event, io: Io)
    requires WithinCap(p, s) && Honest(p, s, e)
    ensures WithinCap(p, Handle(p, s, e, io))
  {
    hide Reserve, OnToolCall, OnDone, Request, StartGoodbye;
    if s.over.None? {
      match e
      case Done(id, cancelled, usage) => DoneKeeps(p, s, io, id, cancelled, usage);
      case ToolCall(response, name, call, args) => ToolCallKeeps(p, s, io, response, name, call, args);
      case Configured => RequestKeeps(p, s.(flow := s.flow.(configured := true)), io, RequestFailed);
      case Committed => RequestKeeps(p, Touch(s, io.now), io, RequestFailed);
      case WrapTimer => StartGoodbyeKeeps(p, s, io, DurationLimit, DurationLimit);
      case _ =>
    }
  }

  lemma {:induction false} WithinCapThroughout(p: Plan, s: Call, inputs: seq<Input>)
    requires WithinCap(p, s) && AllHonest(p, s, inputs)
    ensures WithinCap(p, Run(p, s, inputs))
  {
    hide WithinCap, Honest, Handle;
    if inputs != [] {
      var before, last := inputs[..|inputs| - 1], inputs[|inputs| - 1];
      forall i | 0 <= i < |before|
        ensures Honest(p, Run(p, s, before[..i]), before[i].event)
      {
        assert before[..i] == inputs[..i];
      }
      WithinCapThroughout(p, s, before);
      assert Honest(p, Run(p, s, inputs[..|before|]), last.event);
      WithinCapStep(p, Run(p, s, before), last.event, last.io);
    }
  }

  // In every order of events, with any number of searches, refunds and barge-ins, the
  // call's model cost stays within its cap, or within one goodbye when the cap is below that,
  // whatever tokens a response reports, as long as their price is within its reserve.
  lemma CostStaysUnderCap(p: Plan, start: int, inputs: seq<Input>)
    requires 0.0 <= p.cap && AllHonest(p, Begin(start), inputs)
    ensures 0.0 <= Run(p, Begin(start), inputs).ledger.cost <= if p.cap >= GoodbyeReserve(p) then p.cap else GoodbyeReserve(p)
  {
    ReservesAreMoney(p);
    WithinCapThroughout(p, Begin(start), inputs);
  }

  // response.done comes only while a response is outstanding, and within the token
  // allowance that response was given.
  ghost predicate InAllowance(p: Plan, s: Call, e: Event) {
    e.Done? && e.id != "" && e.id !in s.seen && e.usage.Some? && s.over.None? ==>
      && s.flow.pending
      && e.usage.value.input <= ContextTokens(p.chars)
      && e.usage.value.output <= if s.flow.goodbyeRequested then GOODBYE_TOKENS else REPLY_TOKENS
  }

  // In particular, when each response stays within its token allowance.
  lemma AllowancesKeepTheCap(p: Plan, start: int, inputs: seq<Input>)
    requires 0.0 <= p.cap
    requires forall i :: 0 <= i < |inputs| ==> InAllowance(p, Run(p, Begin(start), inputs[..i]), inputs[i].event)
    ensures AllHonest(p, Begin(start), inputs) && 0.0 <= Run(p, Begin(start), inputs).ledger.cost <= Limit(p)
  {
    hide Run;
    forall i | 0 <= i < |inputs|
      ensures Honest(p, Run(p, Begin(start), inputs[..i]), inputs[i].event)
    {
      AllowanceIsHonest(p, Run(p, Begin(start), inputs[..i]), inputs[i].event);
    }
    CostStaysUnderCap(p, start, inputs);
  }

  lemma AllowanceIsHonest(p: Plan, s: Call, e: Event)
    requires InAllowance(p, s, e)
    ensures Honest(p, s, e)
  {
    hide UsageCost, Reserve;
    if e.Done? && e.usage.Some? && e.usage.value.input <= ContextTokens(p.chars) {
      if e.usage.value.output <= GOODBYE_TOKENS { ReserveCovers(e.usage.value, p.chars, GOODBYE_TOKENS); }
      if e.usage.value.output <= REPLY_TOKENS { ReserveCovers(e.usage.value, p.chars, REPLY_TOKENS); }
    }
  }

  // ----- A cap that is too small for a reply -----

  ghost predicate Tight(p: Plan) { ReplyReserve(p) + GoodbyeReserve(p) > p.cap }

  ghost predicate NoReply(s: Call) { s.ledger.cost >= 0.0 && forall i :: 0 <= i < |s.sent| ==> !s.sent[i].Reply? }

  lemma SendGoodbyeNoReply(s: Call, io: Io, otherwise: Reason)
    requires NoReply(s)
    ensures NoReply(SendGoodbye(s, io, otherwise))
  {
  }

  lemma StartGoodbyeNoReply(s: Call, io: Io, why: Reason, otherwise: Reason)
    requires NoReply(s)
    ensures NoReply(SendGoodbye(s, io, otherwise)) && NoReply(StartGoodbye(s, io, why, otherwise))
  {
    hide SendGoodbye;
    SendGoodbyeNoReply(s, io, otherwise);
    SendGoodbyeNoReply(s.(flow := s.flow.(wrap := Some(why), queued := false)), io, otherwise);
  }

  lemma RequestNoReply(p: Plan, s: Call, io: Io, otherwise: Reason)
    requires Tight(p) && NoReply(s)
    ensures NoReply(Request(p, s, io, otherwise))
  {
    hide Reserve, StartGoodbye, SendReply;
    StartGoodbyeNoReply(s, io, CostLimit, otherwise);
  }

  lemma RunToolNoReply(p: Plan, s: Call, io: Io, response: string, name: string, call: string, search: bool)
    requires Tight(p) && NoReply(s)
    ensures NoReply(RunTool(p, s, io, response, name, call, search))
  {
    hide Reserve, Request;
    var cost := s.ledger.cost;
    var spent := if search then cost + SEARCH_USD else cost;
    var kept := if search && io.tool.Answered? && io.tool.refundable then spent - SEARCH_USD else spent;
    var u := Send(Send(s, ToolRun(call, name, response)).(ledger := s.ledger.(cost := kept), tools := s.tools.(owed := name, owedResponse := "")),
                  ToolOutput(call));
    RequestNoReply(p, u, io, ToolReplyFailed);
  }

  lemma ToolCallNoReply(p: Plan, s: Call, io: Io, response: string, name: string, call: string, args: Arguments)
    requires Tight(p) && NoReply(s)
    ensures NoReply(OnToolCall(p, s, io, response, name, call, args))
  {
    hide Tight, RunTool, StartGoodbye, SearchFits;
    var t := s.(tools := s.tools.(run := s.tools.run + {call}));
    StartGoodbyeNoReply(t, io, CostLimit, CostLimit);
    RunToolNoReply(p, t, io, response, name, call, Searches(name, args));
  }

  lemma DoneNoReply(p: Plan, s: Call, io: Io, id: string, cancelled: bool, usage: Option<Usage>)
    requires Tight(p) && NoReply(s)
    ensures NoReply(OnDone(p, s, io, id, cancelled, usage))
  {
    hide Tight, Next, UsageCost, CachedCount;
    if usage.Some? {
      CachedCountIsTheDiscount(usage.value);
      NextNoReply(p, Finished(s, id, cancelled, Counted(s.ledger, usage.value)), io, id);
    }
  }

  lemma NextNoReply(p: Plan, s: Call, io: Io, id: string)
    requires Tight(p) && NoReply(s)
    ensures NoReply(Next(p, s, io, id))
  {
    hide Tight, Request, StartGoodbye, SendGoodbye, OverCap, DrainMs;
    StartGoodbyeNoReply(s, io, CostLimit, CostLimit);
    StartGoodbyeNoReply(s, io, CostLimit, WrapReason(s.flow));
    RequestNoReply(p, s.(flow := s.flow.(queued := false)), io, RequestFailed);
  }

  lemma AskedNoReply(p: Plan, s: Call, t: Call, io: Io)
    requires Tight(p) && NoReply(s) && t.sent == s.sent && t.ledger == s.ledger
    ensures NoReply(Request(p, t, io, RequestFailed))
  {
    hide Tight, Request;
    RequestNoReply(p, t, io, RequestFailed);
  }

  // t differs from s by at most one message, which is no reply.
  lemma OneMoreNoReply(s: Call, t: Call)
    requires NoReply(s) && t.ledger == s.ledger
    requires t.sent == s.sent || (t.sent != [] && t.sent[..|t.sent| - 1] == s.sent && !t.sent[|t.sent| - 1].Reply?)
    ensures NoReply(t)
  {
  }

  lemma SpeechNoReply(s: Call, io: Io)
    requires NoReply(s)
    ensures NoReply(OnSpeechStarted(s, io))
  {
    hide NoReply, StopPlayback;
    var t := s.(timers := Touched(s.timers.(userSpeaking := true), io.now));
    OneMoreNoReply(s, t);
    OneMoreNoReply(t, BargeIn(t));
    OneMoreNoReply(BargeIn(t), End(BargeIn(t), AzureWriteFailed));
    StopNoReply(t, io);
    StopNoReply(BargeIn(t), io);
  }

  lemma StopNoReply(s: Call, io: Io)
    requires NoReply(s)
    ensures NoReply(StopPlayback(s, io))
  {
    hide NoReply, Heard;
    OneMoreNoReply(s, Send(s, ClearPlayback));
    OneMoreNoReply(Send(s, ClearPlayback), StopPlayback(s, io));
  }

  lemma ModelNoReply(s: Call, e: Event, io: Io)
    requires NoReply(s)
    ensures NoReply(OnSpeechStopped(s, io))
    ensures e.Created? ==> NoReply(OnCreated(s, e.id))
    ensures e.Audio? ==> NoReply(OnAudio(s, io, e.response, e.item, e.valid, e.ms))
    ensures e.Transcript? ==> NoReply(OnTranscript(s, io, e.assistant, e.response, e.item))
    ensures e.Failure? ==> NoReply(OnFailure(s, e.invalidRequest, e.event))
  {
    hide NoReply;
    OneMoreNoReply(s, OnSpeechStopped(s, io));
    if e.Created? { OneMoreNoReply(s, OnCreated(s, e.id)); }
    if e.Audio? { OneMoreNoReply(s, OnAudio(s, io, e.response, e.item, e.valid, e.ms)); }
    if e.Transcript? { OneMoreNoReply(s, OnTranscript(s, io, e.assistant, e.response, e.item)); }
    if e.Failure? { OneMoreNoReply(s, OnFailure(s, e.invalidRequest, e.event)); }
  }

  lemma OutsideNoReply(s: Call, e: Event, io: Io)
    requires NoReply(s)
    ensures NoReply(OnTimer(s, io, e)) && NoReply(OnPhone(s, io, e))
  {
    hide NoReply, StartGoodbye;
    StartGoodbyeNoReply(s, io, DurationLimit, DurationLimit);
    if !e.WrapTimer? { OneMoreNoReply(s, OnTimer(s, io, e)); }
    OneMoreNoReply(s, OnPhone(s, io, e));
  }

  lemma StepNoReply(p: Plan, s: Call, e: Event, io: Io)
    requires Tight(p) && NoReply(s)
    ensures NoReply(Handle(p, s, e, io))
  {
    hide Tight, NoReply, OnToolCall, OnDone, Request, StartGoodbye, OnTranscript, OnSpeechStarted, OnAudio, OnCreated, OnTimer, OnPhone,
         OnSpeechStopped;
    if e.Done? { DoneNoReply(p, s, io, e.id, e.cancelled, e.usage); }
    else if e.ToolCall? { ToolCallNoReply(p, s, io, e.response, e.name, e.call, e.args); }
    else if e.Configured? { AskedNoReply(p, s, s.(flow := s.flow.(configured := true)), io); }
    else if e.Committed? { AskedNoReply(p, s, Touch(s, io.now), io); }
    else if e.SpeechStarted? { SpeechNoReply(s, io); }
    else if e.Created? || e.Audio? || e.Transcript? || e.Failure? || e.SpeechStopped? { ModelNoReply(s, e, io); }
    else { OutsideNoReply(s, e, io); }
  }

  // A cap below one reply and a goodbye never gets a reply, whatever the model reports.
  lemma {:induction false} TightCapsGetNoReply(p: Plan, start: int, inputs: seq<Input>)
    requires Tight(p)
    ensures NoReply(Run(p, Begin(start), inputs))
  {
    hide Tight, Handle;
    if inputs != [] {
      TightCapsGetNoReply(p, start, inputs[..|inputs| - 1]);
      StepNoReply(p, Run(p, Begin(start), inputs[..|inputs| - 1]), inputs[|inputs| - 1].event, inputs[|inputs| - 1].io);
    }
  }
}
