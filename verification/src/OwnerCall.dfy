// cmd/phone-trial-bridge/owner_media.go: what the owner call loop does with each event,
// as functions from one call state to the next. sent is everything the loop has done to
// the outside, in order; a refused write ends the call and stays in sent as an attempt.
module OwnerCall {
  import opened Prelude
  import opened OwnerPricing

  const WRAP_RATIO := 0.9
  const SEARCH_USD := 0.03
  const IDLE_MS := 120000
  const WRAP_HARD_MS := 25000
  const MAX_DRAIN_MS := 15000
  const DRAIN_SLACK_MS := 400
  const END_CALL := "end_call"
  const WEB_RESEARCH := "web_research"

  datatype Plan = Plan(cap: real, chars: nat, tools: set<string>)

  function ReplyReserve(p: Plan): real { Reserve(p.chars, REPLY_TOKENS) }

  function GoodbyeReserve(p: Plan): real { Reserve(p.chars, GOODBYE_TOKENS) }

  datatype Reason =
    | DurationLimit | CostLimit | IdleLimit | OwnerStop | Disconnected | RemoteHangup | InvalidAudio | AzureWriteFailed
    | TwilioWriteFailed | RequestFailed | TranscriptFailed | UnexpectedTool | InvalidTool | OwnerHangup | ToolFailed
    | ToolReplyFailed | MissingResponseId | MissingUsage | InvalidUsage | AzureError

  // A system note sent before the next reply.
  datatype Reminder = Dropped(tool: string) | Unheard(tool: string)

  datatype Sent =
    | Microphone
    | Remind(note: Reminder)
    | Reply
    | Goodbye(why: Reason, at: int)   // at: when it was asked for
    | Cancel(event: nat)
    | ClearPlayback
    | Truncate(item: string, heard: int)
    | Play(response: string, item: string, length: nat)
    | Posted(turn: nat, key: (bool, string))
    | ToolRun(call: string, name: string, response: string)
    | ToolOutput(call: string)

  datatype Arguments = Malformed | Null | Object(size: nat, url: bool)

  datatype Answer = NoAnswer | Answered(refundable: bool)

  // What the world answers while one event is handled: the time, and whether writes to the
  // model, writes to the phone, transcript posts and recorder checks succeed.
  datatype Io = Io(now: int, azure: bool, phone: bool, sink: bool, recorder: bool, tool: Answer)

  datatype Event =
    | Deadline | IdleTimer | WrapTimer | DrainTimer | HardTimer | CheckTimer | SocketError
    | PhoneStop | PhoneMedia(inbound: bool, valid: bool)
    | Created(id: string) | Configured | Committed | SpeechStopped | SpeechStarted
    | Audio(response: string, item: string, valid: bool, ms: nat)
    | Transcript(assistant: bool, response: string, item: string)
    | ToolCall(response: string, name: string, call: string, args: Arguments)
    | Done(id: string, cancelled: bool, usage: Option<Usage>)
    | Failure(invalidRequest: bool, event: nat)

  // Which response is outstanding, and how far the call is towards its goodbye.
  datatype Flow = Flow(
    configured: bool, pending: bool, queued: bool,
    wrap: Option<Reason>, goodbyeAfter: bool, goodbyeRequested: bool, goodbyeId: string)

  datatype Ledger = Ledger(cost: real, input: nat, output: nat, cached: nat, audioTokens: nat)

  datatype Speech = Speech(interrupted: bool, active: string, stale: set<string>, cancels: nat)

  // owed: the tool whose result is still to be spoken; owedResponse: the response meant to speak it.
  datatype Tools = Tools(run: set<string>, dropped: set<string>, owed: string, owedResponse: string, reminders: seq<Reminder>)

  datatype Playback = Playback(item: string, start: int, length: nat)

  datatype Timers = Timers(userSpeaking: bool, idleAt: Option<int>, drainAt: Option<int>, hardAt: Option<int>)

  datatype Call = Call(
    over: Option<Reason>, flow: Flow, ledger: Ledger, speech: Speech, tools: Tools, playback: Playback, timers: Timers,
    seen: set<string>, posted: set<(bool, string)>, turns: nat, sent: seq<Sent>)

  function Begin(now: int): Call {
    Call(None, Flow(false, false, false, None, false, false, ""), Ledger(0.0, 0, 0, 0, 0), Speech(false, "", {}, 0),
         Tools({}, {}, "", "", []), Playback("", 0, 0), Timers(false, Some(now + IDLE_MS), None, None), {}, {}, 0, [])
  }

  function End(s: Call, why: Reason): Call { s.(over := Some(why)) }

  function Send(s: Call, m: Sent): Call { s.(sent := s.sent + [m]) }

  function Touched(t: Timers, now: int): Timers {
    t.(idleAt := if t.userSpeaking then None else Some(now + IDLE_MS))
  }

  function Touch(s: Call, now: int): Call { s.(timers := Touched(s.timers, now)) }

  function WrapReason(f: Flow): Reason { if f.wrap.Some? then f.wrap.value else DurationLimit }

  predicate OverCap(p: Plan, cost: real) {
    cost >= WRAP_RATIO * p.cap || cost + ReplyReserve(p) + GoodbyeReserve(p) > p.cap
  }

  // ----- Requests to the model; a refused one ends the call for the given reason -----

  function SendGoodbye(s: Call, io: Io, otherwise: Reason): Call {
    var t := Send(s.(flow := s.flow.(goodbyeRequested := true, pending := true),
                     timers := s.timers.(hardAt := Some(io.now + WRAP_HARD_MS))),
                  Goodbye(WrapReason(s.flow), io.now));
    if io.azure then t else End(t, otherwise)
  }

  function StartGoodbye(s: Call, io: Io, why: Reason, otherwise: Reason): Call {
    if s.flow.wrap.Some? then s
    else if s.flow.pending then s.(flow := s.flow.(wrap := Some(why), queued := false, goodbyeAfter := true))
    else SendGoodbye(s.(flow := s.flow.(wrap := Some(why), queued := false)), io, otherwise)
  }

  function Reminding(notes: seq<Reminder>): (r: seq<Sent>)
    ensures |r| == |notes|
  {
    seq(|notes|, i requires 0 <= i < |notes| => Remind(notes[i]))
  }

  function SendReply(s: Call, io: Io, otherwise: Reason): Call {
    var t := s.(flow := s.flow.(pending := true), tools := s.tools.(reminders := []),
                sent := s.sent + Reminding(s.tools.reminders) + [Reply]);
    if io.azure then t else End(t, otherwise)
  }

  function Request(p: Plan, s: Call, io: Io, otherwise: Reason): Call {
    if s.flow.wrap.Some? then s
    else if OverCap(p, s.ledger.cost) then StartGoodbye(s, io, CostLimit, otherwise)
    else if s.flow.pending then s.(flow := s.flow.(queued := true))
    else SendReply(s, io, otherwise)
  }

  // ----- Timers and the phone -----

  predicate Due(at: Option<int>, now: int) { at.Some? && at.value <= now }

  function OnTimer(s: Call, io: Io, e: Event): Call {
    match e
    case Deadline => End(s, WrapReason(s.flow))
    case IdleTimer => if Due(s.timers.idleAt, io.now) then End(s, IdleLimit) else s
    case WrapTimer => StartGoodbye(s, io, DurationLimit, DurationLimit)
    case DrainTimer => if Due(s.timers.drainAt, io.now) then End(s, WrapReason(s.flow)) else s
    case HardTimer => if Due(s.timers.hardAt, io.now) then End(s, WrapReason(s.flow)) else s
    case CheckTimer => if io.recorder then s else End(s, OwnerStop)
    case _ => s
  }

  function OnPhone(s: Call, io: Io, e: Event): Call {
    match e
    case SocketError => End(s, Disconnected)
    case PhoneStop => End(s, RemoteHangup)
    case PhoneMedia(inbound, valid) =>
      if !s.flow.configured || !inbound then s
      else if !valid then End(s, InvalidAudio)
      else if io.azure then Send(s, Microphone) else End(Send(s, Microphone), AzureWriteFailed)
    case _ => s
  }

  // ----- The model -----

  function OnCreated(s: Call, id: string): Call {
    var f, v, t := s.flow, s.speech, s.tools;
    s.(flow := if f.goodbyeRequested && f.goodbyeId == "" then f.(goodbyeId := id) else f,
       speech := v.(active := id, stale := if v.interrupted && id != "" then v.stale + {id} else v.stale),
       tools := if t.owed != "" && t.owedResponse == "" && !v.interrupted then t.(owedResponse := id) else t)
  }

  function OnConfigured(p: Plan, s: Call, io: Io): Call {
    if s.flow.configured then s else Request(p, s.(flow := s.flow.(configured := true)), io, RequestFailed)
  }

  function OnCommitted(p: Plan, s: Call, io: Io): Call { Request(p, Touch(s, io.now), io, RequestFailed) }

  function OnSpeechStopped(s: Call, io: Io): Call { s.(timers := Touched(s.timers.(userSpeaking := false), io.now)) }

  function OnSpeechStarted(s: Call, io: Io): Call {
    var t := s.(timers := Touched(s.timers.(userSpeaking := true), io.now));
    if s.flow.wrap.Some? then t
    else if !s.flow.pending || s.speech.interrupted then StopPlayback(t, io)
    else if io.azure then StopPlayback(BargeIn(t), io) else End(BargeIn(t), AzureWriteFailed)
  }

  // The owner talks over the outstanding response: cancel it and disown what it still sends.
  function BargeIn(s: Call): Call {
    var v := s.speech;
    Send(s.(speech := v.(interrupted := true, stale := if v.active != "" then v.stale + {v.active} else v.stale, cancels := v.cancels + 1)),
         Cancel(v.cancels + 1))
  }

  function StopPlayback(s: Call, io: Io): Call {
    var t, b := Send(s, ClearPlayback), s.playback;
    if !io.phone then End(t, TwilioWriteFailed)
    else if b.item == "" then t
    else
      var u := Send(t, Truncate(b.item, Heard(b, io.now)));
      if io.azure then u.(playback := b.(item := "", length := 0)) else End(u, AzureWriteFailed)
  }

  // How much of the current item the owner can have heard.
  function Heard(b: Playback, now: int): int {
    var elapsed := Min(now - b.start, b.length);
    if elapsed < 0 then 0 else elapsed
  }

  // Output of a response the owner has talked over.
  predicate Silenced(v: Speech, response: string) { v.interrupted || response in v.stale }

  function OnAudio(s: Call, io: Io, response: string, item: string, valid: bool, ms: nat): Call {
    if Silenced(s.speech, response) then s
    else if !valid then End(Touch(s, io.now), InvalidAudio)
    else
      var b := s.playback;
      var t := Send(Touch(s, io.now).(playback := if item != b.item then Playback(item, io.now, ms) else b.(length := b.length + ms)),
                    Play(response, item, ms));
      if io.phone then t else End(t, TwilioWriteFailed)
  }

  function OnTranscript(s: Call, io: Io, assistant: bool, response: string, item: string): Call {
    var key := (assistant, item);
    if (assistant && Silenced(s.speech, response)) || key in s.posted then s
    else
      var t := Send(s.(posted := s.posted + {key}, turns := s.turns + 1), Posted(s.turns + 1, key));
      if io.sink then t else End(t, TranscriptFailed)
  }

  predicate Searches(name: string, args: Arguments) { name == WEB_RESEARCH && !(args.Object? && args.url) }

  predicate SearchFits(p: Plan, cost: real) { cost + SEARCH_USD + ReplyReserve(p) + GoodbyeReserve(p) <= p.cap }

  function OnToolCall(p: Plan, s: Call, io: Io, response: string, name: string, call: string, args: Arguments): Call {
    if Silenced(s.speech, response) then DropCall(p, s, name, call)
    else if name !in p.tools || call == "" then End(s, UnexpectedTool)
    else if call in s.tools.run then s
    else
      var t := s.(tools := s.tools.(run := s.tools.run + {call}));
      if args.Malformed? then End(t, InvalidTool)
      else if name == END_CALL then End(t, if args.Object? && args.size == 0 then OwnerHangup else InvalidTool)
      else if Searches(name, args) && !SearchFits(p, s.ledger.cost) then StartGoodbye(t, io, CostLimit, CostLimit)
      else RunTool(p, t, io, response, name, call, Searches(name, args))
  }

  // A call that came from a silenced response is not run; the model is told so, once.
  function DropCall(p: Plan, s: Call, name: string, call: string): Call {
    if name in p.tools && name != END_CALL && call != "" && call !in s.tools.dropped
    then s.(tools := s.tools.(dropped := s.tools.dropped + {call}, reminders := s.tools.reminders + [Dropped(name)]))
    else s
  }

  // A paid search is allocated before it runs, and given back only when it was refused outright.
  function RunTool(p: Plan, s: Call, io: Io, response: string, name: string, call: string, search: bool): Call {
    var cost := s.ledger.cost;
    var spent := if search then cost + SEARCH_USD else cost;
    var t := Send(s, ToolRun(call, name, response));
    if io.tool.NoAnswer? then End(t.(ledger := s.ledger.(cost := spent)), ToolFailed)
    else
      var kept := if search && io.tool.refundable then spent - SEARCH_USD else spent;
      var u := Send(t.(ledger := s.ledger.(cost := kept), tools := s.tools.(owed := name, owedResponse := "")), ToolOutput(call));
      if io.azure then Request(p, u, io, ToolReplyFailed) else End(u, ToolReplyFailed)
  }

  function Detail(n: Option<nat>, limit: nat): nat { if n.Some? && n.value <= limit then n.value else 0 }

  function Counted(l: Ledger, u: Usage): Ledger {
    Ledger(l.cost + UsageCost(u), l.input + u.input, l.output + u.output, l.cached + CachedCount(u),
           l.audioTokens + Detail(u.audio, u.input + u.output) + Detail(u.audioOut, u.input + u.output))
  }

  // Was the tool result that is still owed spoken by the response that is done?
  function Settled(t: Tools, v: Speech, id: string, cancelled: bool): Tools {
    if t.owed == "" || (id != t.owedResponse && t.owedResponse != "") then t
    else if Silenced(v, id) || cancelled then t.(reminders := t.reminders + [Unheard(t.owed)], owedResponse := "")
    else if t.owedResponse != "" then t.(owed := "", owedResponse := "")
    else t
  }

  function OnDone(p: Plan, s: Call, io: Io, id: string, cancelled: bool, usage: Option<Usage>): Call {
    if id == "" then End(s, MissingResponseId)
    else if id in s.seen then s
    else if usage.None? then End(s.(seen := s.seen + {id}), MissingUsage)
    else
      var ledger := Counted(s.ledger, usage.value);
      if ledger.audioTokens > ledger.input + ledger.output
      then End(s.(seen := s.seen + {id}, ledger := ledger), InvalidUsage)
      else Next(p, Finished(s, id, cancelled, ledger), io, id)
  }

  function Finished(s: Call, id: string, cancelled: bool, ledger: Ledger): Call {
    s.(seen := s.seen + {id}, ledger := ledger, tools := Settled(s.tools, s.speech, id, cancelled),
       flow := s.flow.(pending := false), speech := s.speech.(interrupted := false, active := ""))
  }

  // What follows a finished response.
  function Next(p: Plan, s: Call, io: Io, id: string): Call {
    var f := s.flow;
    if f.goodbyeRequested && (f.goodbyeId == "" || f.goodbyeId == id)
    then s.(timers := s.timers.(drainAt := Some(io.now + DrainMs(s.playback, io.now))))
    else if f.wrap.None? && OverCap(p, s.ledger.cost) then StartGoodbye(s, io, CostLimit, CostLimit)
    else if f.goodbyeAfter && !f.goodbyeRequested then SendGoodbye(s, io, WrapReason(f))
    else if f.queued then Request(p, s.(flow := f.(queued := false)), io, RequestFailed)
    else s
  }

  function DrainMs(b: Playback, now: int): int {
    var left := b.start + b.length - now + DRAIN_SLACK_MS;
    if left < 0 || b.item == "" then 0 else Min(left, MAX_DRAIN_MS)
  }

  // A failure is survived only when it answers one of the loop's own cancels.
  function OnFailure(s: Call, invalidRequest: bool, event: nat): Call {
    if invalidRequest && 1 <= event <= s.speech.cancels then s else End(s, AzureError)
  }

  function Handle(p: Plan, s: Call, e: Event, io: Io): Call {
    if s.over.Some? then s
    else
      match e
      case Created(id) => OnCreated(s, id)
      case Configured => OnConfigured(p, s, io)
      case Committed => OnCommitted(p, s, io)
      case SpeechStopped => OnSpeechStopped(s, io)
      case SpeechStarted => OnSpeechStarted(s, io)
      case Audio(response, item, valid, ms) => OnAudio(s, io, response, item, valid, ms)
      case Transcript(assistant, response, item) => OnTranscript(s, io, assistant, response, item)
      case ToolCall(response, name, call, args) => OnToolCall(p, s, io, response, name, call, args)
      case Done(id, cancelled, usage) => OnDone(p, s, io, id, cancelled, usage)
      case Failure(invalidRequest, event) => OnFailure(s, invalidRequest, event)
      case PhoneMedia(_, _) => OnPhone(s, io, e)
      case PhoneStop => OnPhone(s, io, e)
      case SocketError => OnPhone(s, io, e)
      case _ => OnTimer(s, io, e)
  }

  datatype Input = Input(event: Event, io: Io)

  function Run(p: Plan, s: Call, inputs: seq<Input>): Call {
    if inputs == [] then s
    else Handle(p, Run(p, s, inputs[..|inputs| - 1]), inputs[|inputs| - 1].event, inputs[|inputs| - 1].io)
  }
}
