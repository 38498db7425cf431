// cmd/phone-trial-bridge/owner_media.go: the owner call loop itself, one method for each
// kind of event, over the variables it updates in place.
module OwnerLoop {
  import opened Prelude
  import opened OwnerPricing
  import opened OwnerCall
  import OwnerProperties
  import OwnerTrace
  import OwnerAnswers

  class Loop {
    const plan: Plan
    var over: Option<Reason>
    var flow: Flow
    var ledger: Ledger
    var speech: Speech
    var tools: Tools
    var playback: Playback
    var timers: Timers
    var seen: set<string>
    var posted: set<(bool, string)>
    var turns: nat
    ghost var sent: seq<Sent>

    ghost function State(): Call
      reads this
    {
      Call(over, flow, ledger, speech, tools, playback, timers, seen, posted, turns, sent)
    }

    constructor (p: Plan, now: int)
      ensures plan == p && State() == Begin(now)
    {
      plan := p;
      over := None;
      flow := Flow(false, false, false, None, false, false, "");
      ledger := Ledger(0.0, 0, 0, 0, 0);
      speech := Speech(false, "", {}, 0);
      tools := Tools({}, {}, "", "", []);
      playback := Playback("", 0, 0);
      timers := Timers(false, Some(now + IDLE_MS), None, None);
      seen, posted, turns, sent := {}, {}, 0, [];
    }

    method Finish(why: Reason)
      modifies this`over
      ensures State() == End(old(State()), why)
    {
      over := Some(why);
    }

    method Restart(now: int)
      modifies this`timers
      ensures State() == Touch(old(State()), now)
    {
      timers := timers.(idleAt := if timers.userSpeaking then None else Some(now + IDLE_MS));
    }

    // sendGoodbye, startGoodbye and request end the call for the caller's reason when the
    // model does not take what was written.
    method SayGoodbye(io: Io, otherwise: Reason)
      modifies this
      ensures State() == SendGoodbye(old(State()), io, otherwise)
    {
      flow := flow.(goodbyeRequested := true, pending := true);
      timers := timers.(hardAt := Some(io.now + WRAP_HARD_MS));
      sent := sent + [Goodbye(WrapReason(flow), io.now)];
      if !io.azure { Finish(otherwise); }
    }

    method BeginGoodbye(io: Io, reason: Reason, otherwise: Reason)
      modifies this
      ensures State() == StartGoodbye(old(State()), io, reason, otherwise)
    {
      if flow.wrap.Some? { return; }
      flow := flow.(wrap := Some(reason), queued := false);
      if flow.pending {
        flow := flow.(goodbyeAfter := true);
        return;
      }
      SayGoodbye(io, otherwise);
    }

    method SendReminders()
      modifies this`sent
      ensures sent == old(sent) + Reminding(tools.reminders)
    {
      var i := 0;
      while i < |tools.reminders|
        invariant 0 <= i <= |tools.reminders|
        invariant sent == old(sent) + Reminding(tools.reminders)[..i]
      {
        sent := sent + [Remind(tools.reminders[i])];
        i := i + 1;
      }
    }

    method AskForReply(io: Io, otherwise: Reason)
      modifies this
      ensures State() == Request(plan, old(State()), io, otherwise)
    {
      if flow.wrap.Some? { return; }
      if OverCap(plan, ledger.cost) {
        BeginGoodbye(io, CostLimit, otherwise);
        return;
      }
      if flow.pending {
        flow := flow.(queued := true);
        return;
      }
      flow := flow.(pending := true);
      SendReminders();
      tools := tools.(reminders := []);
      sent := sent + [Reply];
      if !io.azure { Finish(otherwise); }
    }

    // ----- Timers and the phone -----

    method HandleTimer(e: Event, io: Io)
      requires over.None?
      modifies this
      ensures State() == OnTimer(old(State()), io, e)
    {
      match e
      case Deadline => Finish(WrapReason(flow));
      case IdleTimer => if Due(timers.idleAt, io.now) { Finish(IdleLimit); }
      case WrapTimer =>
        BeginGoodbye(io, DurationLimit, DurationLimit);
      case DrainTimer => if Due(timers.drainAt, io.now) { Finish(WrapReason(flow)); }
      case HardTimer => if Due(timers.hardAt, io.now) { Finish(WrapReason(flow)); }
      case CheckTimer => if !io.recorder { Finish(OwnerStop); }
      case _ =>
    }

    method HandlePhone(e: Event, io: Io)
      requires over.None?
      modifies this
      ensures State() == OnPhone(old(State()), io, e)
    {
      match e
      case SocketError => Finish(Disconnected);
      case PhoneStop => Finish(RemoteHangup);
      case PhoneMedia(inbound, valid) =>
        if flow.configured && inbound {
          if !valid {
            Finish(InvalidAudio);
          } else {
            sent := sent + [Microphone];
            if !io.azure { Finish(AzureWriteFailed); }
          }
        }
      case _ =>
    }

    // ----- The model -----

    method HandleCreated(id: string)
      modifies this
      ensures State() == OnCreated(old(State()), id)
    {
      speech := speech.(active := id);
      if flow.goodbyeRequested && flow.goodbyeId == "" { flow := flow.(goodbyeId := id); }
      if speech.interrupted && id != "" { speech := speech.(stale := speech.stale + {id}); }
      if tools.owed != "" && tools.owedResponse == "" && !speech.interrupted { tools := tools.(owedResponse := id); }
    }

    method HandleConfigured(io: Io)
      requires over.None?
      modifies this
      ensures State() == OnConfigured(plan, old(State()), io)
    {
      if !flow.configured {
        flow := flow.(configured := true);
        AskForReply(io, RequestFailed);
      }
    }

    method HandleCommitted(io: Io)
      requires over.None?
      modifies this
      ensures State() == OnCommitted(plan, old(State()), io)
    {
      Restart(io.now);
      AskForReply(io, RequestFailed);
    }

    method HandleSpeechStopped(io: Io)
      modifies this
      ensures State() == OnSpeechStopped(old(State()), io)
    {
      timers := timers.(userSpeaking := false);
      Restart(io.now);
    }

    method HandleSpeechStarted(io: Io)
      requires over.None?
      modifies this
      ensures State() == OnSpeechStarted(old(State()), io)
    {
      timers := timers.(userSpeaking := true);
      Restart(io.now);
      if flow.wrap.Some? { return; }
      if flow.pending && !speech.interrupted {
        speech := speech.(interrupted := true, cancels := speech.cancels + 1);
        if speech.active != "" { speech := speech.(stale := speech.stale + {speech.active}); }
        sent := sent + [Cancel(speech.cancels)];
        if !io.azure {
          Finish(AzureWriteFailed);
          return;
        }
      }
      Silence(io);
    }

    method Silence(io: Io)
      requires over.None?
      modifies this
      ensures State() == StopPlayback(old(State()), io)
    {
      sent := sent + [ClearPlayback];
      if !io.phone {
        Finish(TwilioWriteFailed);
        return;
      }
      if playback.item != "" {
        var heard := io.now - playback.start;
        if heard > playback.length { heard := playback.length; }
        if heard < 0 { heard := 0; }
        sent := sent + [Truncate(playback.item, heard)];
        if !io.azure {
          Finish(AzureWriteFailed);
          return;
        }
        playback := playback.(item := "", length := 0);
      }
    }

    method HandleAudio(response: string, part: string, valid: bool, ms: nat, io: Io)
      requires over.None?
      modifies this
      ensures State() == OnAudio(old(State()), io, response, part, valid, ms)
    {
      if speech.interrupted || response in speech.stale { return; }
      Restart(io.now);
      if !valid {
        Finish(InvalidAudio);
        return;
      }
      if part != playback.item { playback := Playback(part, io.now, 0); }
      playback := playback.(length := playback.length + ms);
      sent := sent + [Play(response, part, ms)];
      if !io.phone { Finish(TwilioWriteFailed); }
    }

    method HandleTranscript(assistant: bool, response: string, part: string, io: Io)
      requires over.None?
      modifies this
      ensures State() == OnTranscript(old(State()), io, assistant, response, part)
    {
      if assistant && (speech.interrupted || response in speech.stale) { return; }
      var key := (assistant, part);
      if key in posted { return; }
      posted := posted + {key};
      turns := turns + 1;
      sent := sent + [Posted(turns, key)];
      if !io.sink { Finish(TranscriptFailed); }
    }

    method HandleToolCall(response: string, name: string, call: string, args: Arguments, io: Io)
      requires over.None?
      modifies this
      ensures State() == OnToolCall(plan, old(State()), io, response, name, call, args)
    {
      if speech.interrupted || response in speech.stale {
        if name in plan.tools && name != END_CALL && call != "" && call !in tools.dropped {
          tools := tools.(dropped := tools.dropped + {call}, reminders := tools.reminders + [Dropped(name)]);
        }
        return;
      }
      if name !in plan.tools || call == "" {
        Finish(UnexpectedTool);
        return;
      }
      if call in tools.run { return; }
      tools := tools.(run := tools.run + {call});
      if args.Malformed? {
        Finish(InvalidTool);
      } else if name == END_CALL {
        Finish(if args.Object? && args.size == 0 then OwnerHangup else InvalidTool);
      } else if Searches(name, args) && !SearchFits(plan, ledger.cost) {
        BeginGoodbye(io, CostLimit, CostLimit);
      } else {
        Invoke(response, name, call, Searches(name, args), io);
      }
    }

    method Invoke(response: string, name: string, call: string, search: bool, io: Io)
      requires over.None?
      modifies this
      ensures State() == RunTool(plan, old(State()), io, response, name, call, search)
    {
      if search { ledger := ledger.(cost := ledger.cost + SEARCH_USD); }
      sent := sent + [ToolRun(call, name, response)];
      if io.tool.NoAnswer? {
        Finish(ToolFailed);
        return;
      }
      if search && io.tool.refundable { ledger := ledger.(cost := ledger.cost - SEARCH_USD); }
      tools := tools.(owed := name, owedResponse := "");
      sent := sent + [ToolOutput(call)];
      if !io.azure {
        Finish(ToolReplyFailed);
        return;
      }
      AskForReply(io, ToolReplyFailed);
    }

    method HandleDone(id: string, cancelled: bool, usage: Option<Usage>, io: Io)
      requires over.None?
      modifies this
      ensures State() == OnDone(plan, old(State()), io, id, cancelled, usage)
    {
      if id == "" {
        Finish(MissingResponseId);
        return;
      }
      if id in seen { return; }
      seen := seen + {id};
      if usage.None? {
        Finish(MissingUsage);
        return;
      }
      ledger := Counted(ledger, usage.value);
      if ledger.audioTokens > ledger.input + ledger.output {
        Finish(InvalidUsage);
        return;
      }
      if tools.owed != "" && (id == tools.owedResponse || tools.owedResponse == "") {
        if speech.interrupted || id in speech.stale || cancelled {
          tools := tools.(reminders := tools.reminders + [Unheard(tools.owed)], owedResponse := "");
        } else if tools.owedResponse != "" {
          tools := tools.(owed := "", owedResponse := "");
        }
      }
      flow := flow.(pending := false);
      speech := speech.(interrupted := false, active := "");
      assert State() == Finished(old(State()), id, cancelled, ledger);
      Proceed(id, io);
    }

    method Proceed(id: string, io: Io)
      requires over.None?
      modifies this
      ensures State() == Next(plan, old(State()), io, id)
    {
      if flow.goodbyeRequested && (flow.goodbyeId == "" || flow.goodbyeId == id) {
        var wait := playback.start + playback.length - io.now + DRAIN_SLACK_MS;
        if wait < 0 || playback.item == "" { wait := 0; }
        if wait > MAX_DRAIN_MS { wait := MAX_DRAIN_MS; }
        timers := timers.(drainAt := Some(io.now + wait));
      } else if flow.wrap.None? && OverCap(plan, ledger.cost) {
        BeginGoodbye(io, CostLimit, CostLimit);
      } else if flow.goodbyeAfter && !flow.goodbyeRequested {
        SayGoodbye(io, WrapReason(flow));
      } else if flow.queued {
        flow := flow.(queued := false);
        AskForReply(io, RequestFailed);
      }
    }

    method HandleFailure(invalidRequest: bool, event: nat)
      requires over.None?
      modifies this
      ensures State() == OnFailure(old(State()), invalidRequest, event)
    {
      if !(invalidRequest && 1 <= event <= speech.cancels) { Finish(AzureError); }
    }

    method Dispatch(e: Event, io: Io)
      requires over.None?
      modifies this
      ensures State() == Handle(plan, old(State()), e, io)
    {
      hide OnCreated, OnConfigured, OnCommitted, OnSpeechStopped, OnSpeechStarted, OnAudio, OnTranscript, OnToolCall, OnDone, OnFailure,
           OnPhone, OnTimer;
      match e
      case Created(id) => HandleCreated(id);
      case Configured => HandleConfigured(io);
      case Committed => HandleCommitted(io);
      case SpeechStopped => HandleSpeechStopped(io);
      case SpeechStarted => HandleSpeechStarted(io);
      case Audio(response, part, valid, ms) => HandleAudio(response, part, valid, ms, io);
      case Transcript(assistant, response, part) => HandleTranscript(assistant, response, part, io);
      case ToolCall(response, name, call, args) => HandleToolCall(response, name, call, args, io);
      case Done(id, cancelled, usage) => HandleDone(id, cancelled, usage, io);
      case Failure(invalidRequest, event) => HandleFailure(invalidRequest, event);
      case _ => DispatchOutside(e, io);
    }

    method DispatchOutside(e: Event, io: Io)
      requires over.None?
      modifies this
      ensures State() == if e.PhoneMedia? || e.PhoneStop? || e.SocketError? then OnPhone(old(State()), io, e) else OnTimer(old(State()), io, e)
    {
      if e.PhoneMedia? || e.PhoneStop? || e.SocketError? { HandlePhone(e, io); } else { HandleTimer(e, io); }
    }
  }

  lemma {:induction false} OverIsFinal(p: Plan, s: Call, inputs: seq<Input>)
    requires s.over.Some?
    ensures Run(p, s, inputs) == s
  {
    if inputs != [] { OverIsFinal(p, s, inputs[..|inputs| - 1]); }
  }

  // A whole call: events are handled in order until one of them ends it.
  method OwnerCallLoop(p: Plan, now: int, inputs: seq<Input>) returns (reason: Option<Reason>, cost: real, ghost sent: seq<Sent>)
    ensures var s := Run(p, Begin(now), inputs); reason == s.over && cost == s.ledger.cost && sent == s.sent
    ensures 0.0 <= p.cap && OwnerProperties.AllHonest(p, Begin(now), inputs) ==>
              cost <= if p.cap >= GoodbyeReserve(p) then p.cap else GoodbyeReserve(p)
    ensures OwnerTrace.Goodbyes(sent) <= 1 && NoDuplicates(OwnerTrace.Ran(sent))
    ensures OwnerAnswers.AllAnswered(p, now, inputs)
  {
    hide OwnerAnswers.AllAnswered, Handle, OwnerProperties.AllHonest, OwnerTrace.Goodbyes, OwnerTrace.Ran, Reserve;
    var loop := new Loop(p, now);
    var i := 0;
    while i < |inputs| && loop.over.None?
      invariant 0 <= i <= |inputs| && loop.plan == p && fresh(loop)
      invariant loop.State() == Run(p, Begin(now), inputs[..i])
    {
      assert inputs[..i + 1][..i] == inputs[..i];
      loop.Dispatch(inputs[i].event, inputs[i].io);
      i := i + 1;
    }
    reason, cost, sent := loop.over, loop.ledger.cost, loop.sent;
    assert inputs[..i] + inputs[i..] == inputs;
    OwnerTrace.RunSplits(p, Begin(now), inputs[..i], inputs[i..]);
    if loop.over.Some? { OverIsFinal(p, loop.State(), inputs[i..]); }
    OwnerTrace.OneAtATime(p, now, inputs);
    OwnerAnswers.CommittedTurnsAreAnswered(p, now, inputs);
    if 0.0 <= p.cap && OwnerProperties.AllHonest(p, Begin(now), inputs) { OwnerProperties.CostStaysUnderCap(p, now, inputs); }
  }
}
