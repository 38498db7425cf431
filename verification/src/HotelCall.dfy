// cmd/phone-trial-bridge/media.go: what the hotel call loop does with each event, as
// functions from one call state to the next. sent is everything done to the outside, in
// order, with every usage report the loop accepted.
module HotelCall {
  import opened Prelude
  import opened HotelDialog

  const MAX_INPUT: nat := 50000
  const MAX_OUTPUT: nat := 25000
  const RESPONSE_INPUT: nat := 12000
  const RESPONSE_OUTPUT: nat := 512
  const IDLE_MS := 40000
  const SILENCE_MS := 10000
  const TRANSCRIPT_MS := 3000
  const DRAIN_MS := 15000

  datatype Reason =
    | DurationLimit | ConversationIdle | ResearchFinished | TokenBudgetLimit | AzureWriteFailed | TwilioWriteFailed
    | Disconnected | RemoteHangup | InvalidAudio | EventDeliveryFailed | MissingResponseId | UnsolicitedResponse
    | MissingUsage | ResponseBudgetExceeded | UnexpectedTool | InvalidTool | ConsentWithdrawn | AzureError

  datatype Sent =
    | Create(prompt: Prompt)
    | Counted(id: string, input: nat, output: nat)
    | Microphone
    | Play(item: string, length: nat)
    | ClearPlayback
    | Truncate(item: string, heard: int)
    | EndMark

  // The time, and whether writes to the model and the phone and deliveries to the recorder succeed.
  datatype Io = Io(now: int, azure: bool, phone: bool, emit: bool)

  datatype Event =
    | Deadline | IdleTimer | DrainTimer | TranscriptTimer | SilenceTimer | SocketError
    | PhoneStop | PhoneMark(final: bool) | PhoneMedia(inbound: bool)
    | Updated | CommittedTurn(item: string) | Audio(item: string, valid: bool, ms: nat) | SpeechStarted
    | Transcribed(item: string, text: string) | TranscriptionFailed(item: string) | AssistantTranscript
    | Done(id: string, completed: bool, usage: Option<(nat, nat)>)
    | ToolCall(endCall: bool, valid: bool, withdrawn: bool)
    | Failure

  datatype Flow = Flow(configured: bool, pending: nat, queued: Option<Prompt>, invalid: bool, ending: bool, markHeard: bool)

  datatype Hearing = Hearing(awaiting: set<string>, texts: seq<string>, untranscribed: bool, dueAt: Option<int>)

  datatype Playback = Playback(item: string, start: int, length: nat, end: int)

  datatype Timers = Timers(idleAt: int, silenceAt: Option<int>, drainAt: Option<int>)

  datatype Totals = Totals(input: nat, output: nat)

  datatype Call = Call(
    over: Option<Reason>, talk: Talk, flow: Flow, hearing: Hearing, playback: Playback, timers: Timers, totals: Totals,
    seen: set<string>, sent: seq<Sent>)

  function Begin(now: int): Call {
    Call(None, NEW_TALK, Flow(false, 0, None, false, false, false), Hearing({}, [], false, None), Playback("", 0, 0, 0),
         Timers(now + IDLE_MS, None, None), Totals(0, 0), {}, [])
  }

  function End(s: Call, why: Reason): Call { s.(over := Some(why)) }

  function Send(s: Call, m: Sent): Call { s.(sent := s.sent + [m]) }

  function Touch(s: Call, now: int): Call { s.(timers := s.timers.(idleAt := now + IDLE_MS)) }

  // ----- Asking the model -----

  predicate InBudget(t: Totals) { t.input + RESPONSE_INPUT <= MAX_INPUT && t.output + RESPONSE_OUTPUT <= MAX_OUTPUT }

  function Request(s: Call, io: Io, prompt: Prompt): Call {
    if !InBudget(s.totals) then End(s, TokenBudgetLimit)
    else
      var t := Send(s.(flow := s.flow.(pending := s.flow.pending + 1)), Create(prompt));
      if io.azure then t else End(t, AzureWriteFailed)
  }

  function Respond(s: Call, io: Io, r: (Talk, Option<Prompt>)): Call {
    var t := s.(talk := r.0);
    if r.1.None? then t
    else if s.flow.pending > 0 then t.(flow := s.flow.(queued := r.1))
    else Request(t, io, r.1.value)
  }

  function Join(texts: seq<string>): string {
    if texts == [] then "" else if |texts| == 1 then texts[0] else Join(texts[..|texts| - 1]) + " " + texts[|texts| - 1]
  }

  function Settle(w: Words, s: Call, io: Io): Call {
    var h := s.hearing;
    var text := Join(h.texts);
    Respond(s.(hearing := Hearing({}, [], false, None)), io, Replied(w, s.talk, text, !h.untranscribed || text != ""))
  }

  // ----- Events -----

  predicate Due(at: Option<int>, now: int) { at.Some? && at.value <= now }

  function OnTimer(w: Words, s: Call, io: Io, e: Event): Call {
    match e
    case Deadline => End(s, DurationLimit)
    case IdleTimer => if s.timers.idleAt <= io.now then End(s, ConversationIdle) else s
    case DrainTimer => if Due(s.timers.drainAt, io.now) then End(s, ResearchFinished) else s
    case TranscriptTimer =>
      if Due(s.hearing.dueAt, io.now) then Settle(w, s.(hearing := s.hearing.(untranscribed := true)), io) else s
    case SilenceTimer =>
      if !Due(s.timers.silenceAt, io.now) then s
      else
        var t := s.(timers := s.timers.(silenceAt := None));
        if s.flow.ending || s.flow.pending > 0 || s.hearing.awaiting != {} then t else Respond(t, io, Silent(s.talk))
    case _ => s
  }

  function OnPhone(s: Call, io: Io, e: Event): Call {
    match e
    case SocketError => End(s, Disconnected)
    case PhoneStop => End(s, RemoteHangup)
    case PhoneMark(final) =>
      if !s.flow.ending || !final then s
      else
        var t := s.(flow := s.flow.(markHeard := true));
        if s.flow.pending == 0 then End(t, ResearchFinished) else t
    case PhoneMedia(inbound) =>
      if !s.flow.configured || s.flow.ending || !inbound then s
      else if io.azure then Send(s, Microphone) else End(Send(s, Microphone), AzureWriteFailed)
    case _ => s
  }

  function OnUpdated(s: Call, io: Io): Call {
    if s.flow.configured then s else Request(s.(flow := s.flow.(configured := true)), io, Opening(s.talk))
  }

  function OnCommitted(s: Call, io: Io, item: string): Call {
    if s.flow.ending || s.talk.closing then s
    else
      s.(timers := s.timers.(silenceAt := None),
         hearing := s.hearing.(awaiting := s.hearing.awaiting + {item}, dueAt := Some(io.now + TRANSCRIPT_MS)))
  }

  function OnAudio(s: Call, io: Io, item: string, valid: bool, ms: nat): Call {
    var t, b := Touch(s, io.now), s.playback;
    if s.flow.ending then t
    else if !valid then End(t, InvalidAudio)
    else
      var c := if item != b.item then b.(item := item, start := io.now, length := ms) else b.(length := b.length + ms);
      var u := Send(t.(playback := c.(end := (if b.end < io.now then io.now else b.end) + ms)), Play(item, ms));
      if io.phone then u else End(u, TwilioWriteFailed)
  }

  function OnSpeechStarted(s: Call, io: Io): Call {
    var t, b := Touch(s, io.now), s.playback;
    if s.flow.ending then t
    else
      var u := Send(t.(timers := t.timers.(silenceAt := None), playback := b.(end := io.now)), ClearPlayback);
      if !io.phone then End(u, TwilioWriteFailed)
      else if b.item == "" then u
      else
        var v := Send(u, Truncate(b.item, Heard(b, io.now)));
        if io.azure then v.(playback := v.playback.(item := "", length := 0)) else End(v, AzureWriteFailed)
  }

  function Heard(b: Playback, now: int): int {
    var elapsed := Min(now - b.start, b.length);
    if elapsed < 0 then 0 else elapsed
  }

  function OnTranscribed(w: Words, s: Call, io: Io, item: string, text: string): Call {
    var t, h := Touch(s, io.now), s.hearing;
    if !io.emit then End(t, EventDeliveryFailed)
    else if item !in h.awaiting then t
    else
      var u := t.(hearing := h.(awaiting := h.awaiting - {item}, texts := if w.trim(text) != "" then h.texts + [w.trim(text)] else h.texts));
      if u.hearing.awaiting == {} then Settle(w, u, io) else u
  }

  function OnTranscriptionFailed(w: Words, s: Call, io: Io, item: string): Call {
    var h := s.hearing;
    if item !in h.awaiting then s
    else
      var t := s.(hearing := h.(awaiting := h.awaiting - {item}, untranscribed := true));
      if t.hearing.awaiting == {} then Settle(w, t, io) else t
  }

  function OnToolCall(s: Call, io: Io, endCall: bool, valid: bool, withdrawn: bool): Call {
    if !endCall then End(s, UnexpectedTool)
    else if !valid then End(s, InvalidTool)
    else if !io.emit then End(s, EventDeliveryFailed)
    else if withdrawn then End(s, ConsentWithdrawn)
    else
      var t := Send(s.(flow := s.flow.(ending := true)), EndMark);
      if io.phone then t.(timers := t.timers.(drainAt := Some(io.now + DRAIN_MS))) else End(t, TwilioWriteFailed)
  }

  function OnDone(s: Call, io: Io, id: string, completed: bool, usage: Option<(nat, nat)>): Call {
    if id == "" then End(Invalid(s), MissingResponseId)
    else if id in s.seen then s
    else
      var t := s.(seen := s.seen + {id});
      if s.flow.pending == 0 then End(Invalid(t), UnsolicitedResponse)
      else
        var u := t.(flow := t.flow.(pending := t.flow.pending - 1));
        if usage.None? then End(Invalid(u), MissingUsage)
        else Account(if completed then u else Invalid(u), io, id, usage.value.0, usage.value.1)
  }

  function Invalid(s: Call): Call { s.(flow := s.flow.(invalid := true)) }

  function Account(s: Call, io: Io, id: string, input: nat, output: nat): Call {
    var t := Send(s.(totals := Totals(s.totals.input + input, s.totals.output + output)), Counted(id, input, output));
    if !io.emit then End(t, EventDeliveryFailed)
    else if input > RESPONSE_INPUT || output > RESPONSE_OUTPUT then End(Invalid(t), ResponseBudgetExceeded)
    else if !InBudget(t.totals) then End(t, TokenBudgetLimit)
    else if t.flow.ending && t.flow.markHeard then End(t, ResearchFinished)
    else FollowUp(t, io)
  }

  // What follows an accepted response: the queued prompt, or the wait for an answer.
  function FollowUp(s: Call, io: Io): Call {
    if s.flow.queued.Some? && !s.flow.ending then Request(s.(flow := s.flow.(queued := None)), io, s.flow.queued.value)
    else if s.flow.pending == 0 && !s.flow.ending && !s.talk.closing && s.hearing.awaiting == {}
    then s.(timers := s.timers.(silenceAt := Some((if s.playback.end < io.now then io.now else s.playback.end) + SILENCE_MS)))
    else s
  }

  function Handle(w: Words, s: Call, e: Event, io: Io): Call {
    if s.over.Some? then s
    else
      match e
      case Updated => OnUpdated(s, io)
      case CommittedTurn(item) => OnCommitted(s, io, item)
      case Audio(item, valid, ms) => OnAudio(s, io, item, valid, ms)
      case SpeechStarted => OnSpeechStarted(s, io)
      case Transcribed(item, text) => OnTranscribed(w, s, io, item, text)
      case TranscriptionFailed(item) => OnTranscriptionFailed(w, s, io, item)
      case AssistantTranscript => if io.emit then s else End(s, EventDeliveryFailed)
      case Done(id, completed, usage) => OnDone(s, io, id, completed, usage)
      case ToolCall(endCall, valid, withdrawn) => OnToolCall(s, io, endCall, valid, withdrawn)
      case Failure => End(s, if io.emit then AzureError else EventDeliveryFailed)
      case SocketError => OnPhone(s, io, e)
      case PhoneStop => OnPhone(s, io, e)
      case PhoneMark(_) => OnPhone(s, io, e)
      case PhoneMedia(_) => OnPhone(s, io, e)
      case _ => OnTimer(w, s, io, e)
  }

  // What the bridge reports when the loop has ended.
  predicate UsageComplete(s: Call) {
    (s.over == Some(ResearchFinished) || s.over == Some(TokenBudgetLimit)) && s.flow.pending == 0 && !s.flow.invalid
  }

  datatype Input = Input(event: Event, io: Io)

  function Run(w: Words, s: Call, inputs: seq<Input>): Call {
    if inputs == [] then s
    else Handle(w, Run(w, s, inputs[..|inputs| - 1]), inputs[|inputs| - 1].event, inputs[|inputs| - 1].io)
  }
}
