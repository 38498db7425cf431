// cmd/phone-trial-bridge/media.go: the hotel call loop itself, one method for each kind of
// event, over the variables it updates in place.
module HotelBridge {
  import opened Prelude
  import opened HotelDialog
  import opened HotelCall
  import HotelProperties

  class Bridge {
    const dialog: Dialog
    var over: Option<Reason>
    var flow: Flow
    var hearing: Hearing
    var playback: Playback
    var timers: Timers
    var totals: Totals
    var seen: set<string>
    ghost var sent: seq<Sent>

    ghost function State(): Call
      reads this, dialog
    {
      Call(over, dialog.State(), flow, hearing, playback, timers, totals, seen, sent)
    }

    constructor (w: Words, now: int)
      ensures fresh(dialog) && dialog.words == w && State() == Begin(now)
    {
      dialog := new Dialog(w);
      over := None;
      flow := Flow(false, 0, None, false, false, false);
      hearing := Hearing({}, [], false, None);
      playback := Playback("", 0, 0, 0);
      timers := Timers(now + IDLE_MS, None, None);
      totals, seen, sent := Totals(0, 0), {}, [];
    }

    method Finish(why: Reason)
      modifies this`over
      ensures State() == End(old(State()), why)
    {
      over := Some(why);
    }

    method Restart(now: int)
      modifies this`timers
      ensures State() == Touch(old(State()), now)
    {
      timers := timers.(idleAt := now + IDLE_MS);
    }

    // ----- Asking the model -----

    method RequestResponse(prompt: Prompt, io: Io)
      modifies this
      ensures State() == Request(old(State()), io, prompt)
    {
      if !(totals.input + RESPONSE_INPUT <= MAX_INPUT && totals.output + RESPONSE_OUTPUT <= MAX_OUTPUT) {
        Finish(TokenBudgetLimit);
        return;
      }
      flow := flow.(pending := flow.pending + 1);
      sent := sent + [Create(prompt)];
      if !io.azure { Finish(AzureWriteFailed); }
    }

    // was: the state before the dialog moved on.
    method Say(prompt: Option<Prompt>, io: Io, ghost was: Call)
      requires State() == was.(talk := dialog.State())
      modifies this
      ensures State() == Respond(was, io, (dialog.State(), prompt))
    {
      if prompt.None? { return; }
      if flow.pending > 0 {
        flow := flow.(queued := prompt);
      } else {
        RequestResponse(prompt.value, io);
      }
    }

    method SettleTurn(io: Io)
      modifies this, dialog
      ensures State() == Settle(dialog.words, old(State()), io)
    {
      var text := JoinTexts(hearing.texts);
      var transcribed := !hearing.untranscribed || text != "";
      hearing := Hearing({}, [], false, None);
      ghost var was := State();
      var o := dialog.Reply(text, transcribed);
      Say(o, io, was);
    }

    method JoinTexts(texts: seq<string>) returns (text: string)
      ensures text == Join(texts)
    {
      text := "";
      var i := 0;
      while i < |texts|
        invariant 0 <= i <= |texts| && text == Join(texts[..i])
      {
        assert texts[..i + 1][..i] == texts[..i];
        text := if i == 0 then texts[0] else text + " " + texts[i];
        i := i + 1;
      }
      assert texts[..|texts|] == texts;
    }

    // ----- Timers and the phone -----

    method HandleTimer(e: Event, io: Io)
      requires over.None?
      modifies this, dialog
      ensures State() == OnTimer(dialog.words, old(State()), io, e)
    {
      match e
      case Deadline => Finish(DurationLimit);
      case IdleTimer => if timers.idleAt <= io.now { Finish(ConversationIdle); }
      case DrainTimer => if Due(timers.drainAt, io.now) { Finish(ResearchFinished); }
      case TranscriptTimer =>
        if Due(hearing.dueAt, io.now) {
          hearing := hearing.(untranscribed := true);
          SettleTurn(io);
        }
      case SilenceTimer =>
        if Due(timers.silenceAt, io.now) {
          timers := timers.(silenceAt := None);
          if !flow.ending && flow.pending == 0 && hearing.awaiting == {} {
            ghost var was := State();
            var o := dialog.Silence();
            Say(o, io, was);
          }
        }
      case _ =>
    }

    method HandlePhone(e: Event, io: Io)
      requires over.None?
      modifies this
      ensures State() == OnPhone(old(State()), io, e)
    {
      match e
      case SocketError => Finish(Disconnected);
      case PhoneStop => Finish(RemoteHangup);
      case PhoneMark(final) =>
        if flow.ending && final {
          flow := flow.(markHeard := true);
          if flow.pending == 0 { Finish(ResearchFinished); }
        }
      case PhoneMedia(inbound) =>
        if flow.configured && !flow.ending && inbound {
          sent := sent + [Microphone];
          if !io.azure { Finish(AzureWriteFailed); }
        }
      case _ =>
    }

    // ----- The model -----

    method HandleUpdated(io: Io)
      requires over.None?
      modifies this
      ensures State() == OnUpdated(old(State()), io)
    {
      if !flow.configured {
        flow := flow.(configured := true);
        var prompt := dialog.Instructions(Ask(0, true));
        RequestResponse(prompt, io);
      }
    }

    method HandleCommitted(item: string, io: Io)
      requires over.None?
      modifies this
      ensures State() == OnCommitted(old(State()), io, item)
    {
      if !flow.ending && !dialog.closing {
        timers := timers.(silenceAt := None);
        hearing := hearing.(awaiting := hearing.awaiting + {item}, dueAt := Some(io.now + TRANSCRIPT_MS));
      }
    }

    method HandleAudio(item: string, valid: bool, ms: nat, io: Io)
      requires over.None?
      modifies this
      ensures State() == OnAudio(old(State()), io, item, valid, ms)
    {
      Restart(io.now);
      if flow.ending { return; }
      if !valid {
        Finish(InvalidAudio);
        return;
      }
      if item != playback.item { playback := playback.(item := item, start := io.now, length := 0); }
      playback := playback.(length := playback.length + ms);
      if playback.end < io.now { playback := playback.(end := io.now); }
      playback := playback.(end := playback.end + ms);
      sent := sent + [Play(item, ms)];
      if !io.phone { Finish(TwilioWriteFailed); }
    }

    method HandleSpeechStarted(io: Io)
      requires over.None?
      modifies this
      ensures State() == OnSpeechStarted(old(State()), io)
    {
      Restart(io.now);
      if flow.ending { return; }
      timers := timers.(silenceAt := None);
      playback := playback.(end := io.now);
      sent := sent + [ClearPlayback];
      if !io.phone {
        Finish(TwilioWriteFailed);
        return;
      }
      if playback.item != "" {
        var heard := io.now - playback.start;
        if heard > playback.length { heard := playback.length; }
        if heard < 0 { heard := 0; }
        sent := sent + [Truncate(playback.item, heard)];
        if !io.azure {
          Finish(AzureWriteFailed);
          return;
        }
        playback := playback.(item := "", length := 0);
      }
    }

    method HandleTranscribed(item: string, text: string, io: Io)
      requires over.None?
      modifies this, dialog
      ensures State() == OnTranscribed(dialog.words, old(State()), io, item, text)
    {
      Restart(io.now);
      if !io.emit {
        Finish(EventDeliveryFailed);
        return;
      }
      if item in hearing.awaiting {
        hearing := hearing.(awaiting := hearing.awaiting - {item});
        var words := dialog.words.trim(text);
        if words != "" { hearing := hearing.(texts := hearing.texts + [words]); }
        if hearing.awaiting == {} { SettleTurn(io); }
      }
    }

    method HandleTranscriptionFailed(item: string, io: Io)
      requires over.None?
      modifies this, dialog
      ensures State() == OnTranscriptionFailed(dialog.words, old(State()), io, item)
    {
      if item in hearing.awaiting {
        hearing := hearing.(awaiting := hearing.awaiting - {item}, untranscribed := true);
        if hearing.awaiting == {} { SettleTurn(io); }
      }
    }

    method HandleDone(id: string, completed: bool, usage: Option<(nat, nat)>, io: Io)
      requires over.None?
      modifies this
      ensures State() == OnDone(old(State()), io, id, completed, usage)
    {
      if id == "" {
        flow := flow.(invalid := true);
        Finish(MissingResponseId);
        return;
      }
      if id in seen { return; }
      seen := seen + {id};
      if flow.pending == 0 {
        flow := flow.(invalid := true);
        Finish(UnsolicitedResponse);
        return;
      }
      flow := flow.(pending := flow.pending - 1);
      if usage.None? {
        flow := flow.(invalid := true);
        Finish(MissingUsage);
        return;
      }
      if !completed { flow := flow.(invalid := true); }
      Count(id, usage.value.0, usage.value.1, io);
    }

    method Count(id: string, input: nat, output: nat, io: Io)
      requires over.None?
      modifies this
      ensures State() == Account(old(State()), io, id, input, output)
    {
      totals := Totals(totals.input + input, totals.output + output);
      sent := sent + [Counted(id, input, output)];
      if !io.emit {
        Finish(EventDeliveryFailed);
        return;
      }
      if input > RESPONSE_INPUT || output > RESPONSE_OUTPUT {
        flow := flow.(invalid := true);
        Finish(ResponseBudgetExceeded);
      } else if totals.input + RESPONSE_INPUT > MAX_INPUT || totals.output + RESPONSE_OUTPUT > MAX_OUTPUT {
        Finish(TokenBudgetLimit);
      } else if flow.ending && flow.markHeard {
        Finish(ResearchFinished);
      } else {
        Continue(io);
      }
    }

    method Continue(io: Io)
      requires over.None?
      modifies this
      ensures State() == FollowUp(old(State()), io)
    {
      if flow.queued.Some? && !flow.ending {
        var prompt := flow.queued.value;
        flow := flow.(queued := None);
        RequestResponse(prompt, io);
      } else if flow.pending == 0 && !flow.ending && !dialog.closing && hearing.awaiting == {} {
        var wait := playback.end - io.now;
        if wait < 0 { wait := 0; }
        timers := timers.(silenceAt := Some(io.now + wait + SILENCE_MS));
      }
    }

    method HandleToolCall(endCall: bool, valid: bool, withdrawn: bool, io: Io)
      requires over.None?
      modifies this
      ensures State() == OnToolCall(old(State()), io, endCall, valid, withdrawn)
    {
      if !endCall { Finish(UnexpectedTool); return; }
      if !valid { Finish(InvalidTool); return; }
      if !io.emit { Finish(EventDeliveryFailed); return; }
      if withdrawn { Finish(ConsentWithdrawn); return; }
      flow := flow.(ending := true);
      sent := sent + [EndMark];
      if !io.phone { Finish(TwilioWriteFailed); return; }
      timers := timers.(drainAt := Some(io.now + DRAIN_MS));
    }

    method Dispatch(e: Event, io: Io)
      requires over.None?
      modifies this, dialog
      ensures State() == Handle(dialog.words, old(State()), e, io)
    {
      hide OnUpdated, OnCommitted, OnAudio, OnSpeechStarted, OnTranscribed, OnTranscriptionFailed, OnDone, OnToolCall, OnPhone, OnTimer;
      match e
      case Updated => HandleUpdated(io);
      case Audio(item, valid, ms) => HandleAudio(item, valid, ms, io);
      case CommittedTurn(_) => DispatchStaff(e, io);
      case SpeechStarted => DispatchStaff(e, io);
      case Transcribed(_, _) => DispatchStaff(e, io);
      case TranscriptionFailed(_) => DispatchStaff(e, io);
      case AssistantTranscript => if !io.emit { Finish(EventDeliveryFailed); }
      case Done(id, completed, usage) => HandleDone(id, completed, usage, io);
      case ToolCall(endCall, valid, withdrawn) => HandleToolCall(endCall, valid, withdrawn, io);
      case Failure => Finish(if io.emit then AzureError else EventDeliveryFailed);
      case _ => DispatchOutside(e, io);
    }

    // What the hotel's staff says.
    method DispatchStaff(e: Event, io: Io)
      requires over.None? && (e.CommittedTurn? || e.SpeechStarted? || e.Transcribed? || e.TranscriptionFailed?)
      modifies this, dialog
      ensures State() == Handle(dialog.words, old(State()), e, io)
    {
      hide OnUpdated, OnCommitted, OnAudio, OnSpeechStarted, OnTranscribed, OnTranscriptionFailed, OnDone, OnToolCall, OnPhone, OnTimer;
      match e
      case CommittedTurn(item) => HandleCommitted(item, io);
      case SpeechStarted => HandleSpeechStarted(io);
      case Transcribed(item, text) => HandleTranscribed(item, text, io);
      case TranscriptionFailed(item) => HandleTranscriptionFailed(item, io);
    }

    method DispatchOutside(e: Event, io: Io)
      requires over.None?
      modifies this, dialog
      ensures State() == if e.PhoneMedia? || e.PhoneMark? || e.PhoneStop? || e.SocketError? then OnPhone(old(State()), io, e)
                         else OnTimer(dialog.words, old(State()), io, e)
    {
      if e.PhoneMedia? || e.PhoneMark? || e.PhoneStop? || e.SocketError? { HandlePhone(e, io); } else { HandleTimer(e, io); }
    }
  }

  lemma {:induction false} OverIsFinal(w: Words, s: Call, inputs: seq<Input>)
    requires s.over.Some?
    ensures Run(w, s, inputs) == s
  {
    if inputs != [] { OverIsFinal(w, s, inputs[..|inputs| - 1]); }
  }

  lemma {:induction false} RunSplits(w: Words, s: Call, a: seq<Input>, b: seq<Input>)
    ensures Run(w, s, a + b) == Run(w, Run(w, s, a), b)
  {
    if b == [] {
      assert a + b == a;
    } else {
      RunSplits(w, s, a, b[..|b| - 1]);
      assert (a + b)[..|a + b| - 1] == a + b[..|b| - 1];
    }
  }

  // A whole call: events are handled in order until one of them ends it.
  method BridgeLoop(w: Words, now: int, inputs: seq<Input>)
    returns (reason: Option<Reason>, totals: Totals, complete: bool, ghost sent: seq<Sent>)
    ensures
      var s := Run(w, Begin(now), inputs);
      reason == s.over && totals == s.totals && complete == UsageComplete(s)
    ensures sent == Run(w, Begin(now), inputs).sent
    ensures HotelProperties.Creates(sent) <= 9 && totals == HotelProperties.Sum(sent)
    ensures complete ==> HotelProperties.Creates(sent) == |HotelProperties.CountedIds(sent)|
  {
    hide Handle, HotelProperties.Creates, HotelProperties.Sum, HotelProperties.CountedIds;
    var bridge := new Bridge(w, now);
    var i := 0;
    while i < |inputs| && bridge.over.None?
      invariant 0 <= i <= |inputs| && bridge.dialog.words == w && fresh(bridge) && fresh(bridge.dialog)
      invariant bridge.State() == Run(w, Begin(now), inputs[..i])
    {
      assert inputs[..i + 1][..i] == inputs[..i];
      bridge.Dispatch(inputs[i].event, inputs[i].io);
      i := i + 1;
    }
    reason, totals, sent := bridge.over, bridge.totals, bridge.sent;
    complete := (reason == Some(ResearchFinished) || reason == Some(TokenBudgetLimit))
                && bridge.flow.pending == 0 && !bridge.flow.invalid;
    assert inputs[..i] + inputs[i..] == inputs;
    RunSplits(w, Begin(now), inputs[..i], inputs[i..]);
    if bridge.over.Some? { OverIsFinal(w, bridge.State(), inputs[i..]); }
    HotelProperties.AtMostNineResponses(w, now, inputs);
    if complete { HotelProperties.CompleteMeansCounted(w, now, inputs); }
  }
}
