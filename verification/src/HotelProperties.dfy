// What the hotel call loop keeps in every order of events.
module HotelProperties {
  import opened Prelude
  import opened HotelDialog
  import opened HotelCall

  // ----- Reading the trace -----

  function Creates(sent: seq<Sent>): nat {
    if sent == [] then 0 else Creates(sent[..|sent| - 1]) + if sent[|sent| - 1].Create? then 1 else 0
  }

  // The ids of the responses whose usage was counted, and what they add up to.
  function CountedIds(sent: seq<Sent>): seq<string> {
    if sent == [] then []
    else CountedIds(sent[..|sent| - 1]) + if sent[|sent| - 1].Counted? then [sent[|sent| - 1].id] else []
  }

  function Sum(sent: seq<Sent>): Totals {
    if sent == [] then Totals(0, 0)
    else
      var t := Sum(sent[..|sent| - 1]);
      if sent[|sent| - 1].Counted? then Totals(t.input + sent[|sent| - 1].input, t.output + sent[|sent| - 1].output) else t
  }

  lemma Sending(sent: seq<Sent>, m: Sent)
    ensures Creates(sent + [m]) == Creates(sent) + if m.Create? then 1 else 0
    ensures CountedIds(sent + [m]) == CountedIds(sent) + if m.Counted? then [m.id] else []
    ensures Sum(sent + [m]) == if m.Counted? then Totals(Sum(sent).input + m.input, Sum(sent).output + m.output) else Sum(sent)
  {
    assert (sent + [m])[..|sent|] == sent;
  }

  // ----- The invariant -----

  // Prompts still to come: one for the opening, one if queued, and what the dialog has left.
  function Budget(s: Call): int {
    Left(s.talk) + (if s.flow.queued.Some? then 1 else 0) + (if s.flow.configured then 0 else 1)
  }

  ghost predicate Dialogue(s: Call) { ValidTalk(s.talk) && Left(s.talk) >= 0 && Creates(s.sent) + Budget(s) <= 9 }

  ghost predicate Ledger(s: Call) {
    && Sum(s.sent) == s.totals
    && NoDuplicates(CountedIds(s.sent)) && (forall i :: 0 <= i < |CountedIds(s.sent)| ==> CountedIds(s.sent)[i] in s.seen)
    && (!s.flow.invalid ==> Creates(s.sent) == |CountedIds(s.sent)| + s.flow.pending)
  }

  ghost predicate Good(s: Call) { Dialogue(s) && Ledger(s) }

  lemma SendKeeps(s: Call, m: Sent)
    requires Good(s) && !m.Create? && !m.Counted?
    ensures Good(Send(s, m))
  {
    Sending(s.sent, m);
  }

  lemma RequestKeeps(s: Call, io: Io, prompt: Prompt)
    requires ValidTalk(s.talk) && Left(s.talk) >= 0 && Creates(s.sent) + Budget(s) < 9 && Ledger(s)
    ensures Good(Request(s, io, prompt))
  {
    hide CountedIds, Sum, Creates, ValidTalk, Left;
    Sending(s.sent, Create(prompt));
  }

  // Changes that no prompt and no count depend on.
  ghost predicate Aside(s: Call, t: Call) {
    && t.talk == s.talk && t.sent == s.sent && t.totals == s.totals && t.seen == s.seen
    && t.flow.pending == s.flow.pending && t.flow.queued == s.flow.queued && t.flow.configured == s.flow.configured
    && (s.flow.invalid ==> t.flow.invalid)
  }

  lemma AsideKeeps(s: Call, t: Call)
    requires Good(s) && Aside(s, t)
    ensures Good(t)
  {
  }

  lemma RespondKeeps(s: Call, io: Io, r: (Talk, Option<Prompt>))
    requires Good(s) && Progress(s.talk, r)
    ensures Good(Respond(s, io, r))
  {
    hide Request, CountedIds, Sum, Creates, GoodNotes;
    if r.1.Some? && s.flow.pending == 0 { RequestKeeps(s.(talk := r.0), io, r.1.value); }
  }

  lemma SettleKeeps(w: Words, s: Call, io: Io)
    requires Good(s)
    ensures Good(Settle(w, s, io))
  {
    hide Good, Respond, Replied, Progress;
    var h := s.hearing;
    var t := s.(hearing := Hearing({}, [], false, None));
    AsideKeeps(s, t);
    GoodTalk(s);
    EveryTurnMakesProgress(w, s.talk, Join(h.texts), !h.untranscribed || Join(h.texts) != "");
    RespondKeeps(t, io, Replied(w, s.talk, Join(h.texts), !h.untranscribed || Join(h.texts) != ""));
  }

  lemma GoodTalk(s: Call)
    requires Good(s)
    ensures ValidTalk(s.talk)
  {
  }

  lemma TimerKeeps(w: Words, s: Call, io: Io, e: Event)
    requires Good(s)
    ensures Good(OnTimer(w, s, io, e))
  {
    hide Good, Respond, Settle, Silent, Progress;
    match e
    case TranscriptTimer =>
      AsideKeeps(s, s.(hearing := s.hearing.(untranscribed := true)));
      SettleKeeps(w, s.(hearing := s.hearing.(untranscribed := true)), io);
    case SilenceTimer =>
      var t := s.(timers := s.timers.(silenceAt := None));
      AsideKeeps(s, t);
      GoodTalk(s);
      EveryTurnMakesProgress(w, s.talk, "", false);
      RespondKeeps(t, io, Silent(s.talk));
    case _ => AsideKeeps(s, OnTimer(w, s, io, e));
  }

  lemma PhoneKeeps(s: Call, io: Io, e: Event)
    requires Good(s)
    ensures Good(OnPhone(s, io, e))
  {
    hide Good;
    var t := OnPhone(s, io, e);
    if t.sent == s.sent { AsideKeeps(s, t); }
    else {
      SendKeeps(s, Microphone);
      AsideKeeps(Send(s, Microphone), t);
    }
  }

  lemma UpdatedKeeps(s: Call, io: Io)
    requires Good(s)
    ensures Good(OnUpdated(s, io))
  {
    hide Request, Opening;
    if !s.flow.configured { RequestKeeps(s.(flow := s.flow.(configured := true)), io, Opening(s.talk)); }
  }

  // One message that is neither a request nor a count, then changes aside.
  lemma SendAsideKeeps(s: Call, m: Sent, t: Call)
    requires Good(s) && !m.Create? && !m.Counted? && Aside(Send(s, m), t)
    ensures Good(t)
  {
    hide Good;
    SendKeeps(s, m);
    AsideKeeps(Send(s, m), t);
  }

  lemma AudioKeeps(s: Call, io: Io, item: string, valid: bool, ms: nat)
    requires Good(s)
    ensures Good(OnAudio(s, io, item, valid, ms))
  {
    hide Good;
    var t := OnAudio(s, io, item, valid, ms);
    if s.flow.ending || !valid { AsideKeeps(s, t); } else { SendAsideKeeps(s, Play(item, ms), t); }
  }

  lemma SpeechStartedKeeps(s: Call, io: Io)
    requires Good(s)
    ensures Good(OnSpeechStarted(s, io))
  {
    hide Good;
    var t, b := OnSpeechStarted(s, io), s.playback;
    if s.flow.ending { AsideKeeps(s, t); }
    else {
      SendKeeps(s, ClearPlayback);
      if !io.phone || b.item == "" { AsideKeeps(Send(s, ClearPlayback), t); }
      else { SendAsideKeeps(Send(s, ClearPlayback), Truncate(b.item, Heard(b, io.now)), t); }
    }
  }

  lemma HeardKeeps(w: Words, s: Call, t: Call, io: Io)
    requires Good(s) && Aside(s, t)
    ensures Good(t) && Good(Settle(w, t, io))
  {
    AsideKeeps(s, t);
    SettleKeeps(w, t, io);
  }

  lemma TranscribedKeeps(w: Words, s: Call, io: Io, item: string, text: string)
    requires Good(s)
    ensures Good(OnTranscribed(w, s, io, item, text))
  {
    hide Good, Settle;
    var h := s.hearing;
    AsideKeeps(s, Touch(s, io.now));
    AsideKeeps(s, End(Touch(s, io.now), EventDeliveryFailed));
    HeardKeeps(w, s, Touch(s, io.now).(hearing := h.(awaiting := h.awaiting - {item},
               texts := if w.trim(text) != "" then h.texts + [w.trim(text)] else h.texts)), io);
  }

  lemma TranscriptionFailedKeeps(w: Words, s: Call, io: Io, item: string)
    requires Good(s)
    ensures Good(OnTranscriptionFailed(w, s, io, item))
  {
    hide Good, Settle;
    HeardKeeps(w, s, s.(hearing := s.hearing.(awaiting := s.hearing.awaiting - {item}, untranscribed := true)), io);
  }

  lemma ToolCallKeeps(s: Call, io: Io, endCall: bool, valid: bool, withdrawn: bool)
    requires Good(s)
    ensures Good(OnToolCall(s, io, endCall, valid, withdrawn))
  {
    hide Good;
    var t := OnToolCall(s, io, endCall, valid, withdrawn);
    if t.sent == s.sent { AsideKeeps(s, t); } else { SendAsideKeeps(s, EndMark, t); }
  }

  // A response is done but its usage is not counted yet.
  ghost predicate Counting(s: Call, id: string) {
    && Dialogue(s) && id in s.seen && id !in CountedIds(s.sent)
    && Sum(s.sent) == s.totals && NoDuplicates(CountedIds(s.sent))
    && (forall i :: 0 <= i < |CountedIds(s.sent)| ==> CountedIds(s.sent)[i] in s.seen)
    && (!s.flow.invalid ==> Creates(s.sent) == |CountedIds(s.sent)| + s.flow.pending + 1)
  }

  lemma FollowUpKeeps(s: Call, io: Io)
    requires Good(s)
    ensures Good(FollowUp(s, io))
  {
    hide Request;
    if s.flow.queued.Some? && !s.flow.ending { RequestKeeps(s.(flow := s.flow.(queued := None)), io, s.flow.queued.value); }
  }

  lemma CountKeeps(s: Call, id: string, input: nat, output: nat)
    requires Counting(s, id)
    ensures Good(Send(s.(totals := Totals(s.totals.input + input, s.totals.output + output)), Counted(id, input, output)))
  {
    Sending(s.sent, Counted(id, input, output));
  }

  lemma AccountKeeps(s: Call, io: Io, id: string, input: nat, output: nat)
    requires Counting(s, id)
    ensures Good(Account(s, io, id, input, output))
  {
    hide Good, FollowUp, Counting;
    var t := Send(s.(totals := Totals(s.totals.input + input, s.totals.output + output)), Counted(id, input, output));
    CountKeeps(s, id, input, output);
    FollowUpKeeps(t, io);
    if Account(s, io, id, input, output) != FollowUp(t, io) { AsideKeeps(t, Account(s, io, id, input, output)); }
  }

  lemma DoneKeeps(s: Call, io: Io, id: string, completed: bool, usage: Option<(nat, nat)>)
    requires Good(s)
    ensures Good(OnDone(s, io, id, completed, usage))
  {
    hide Account;
    if id != "" && id !in s.seen && s.flow.pending > 0 && usage.Some? {
      var u := s.(seen := s.seen + {id}, flow := s.flow.(pending := s.flow.pending - 1));
      AccountKeeps(if completed then u else Invalid(u), io, id, usage.value.0, usage.value.1);
    }
  }

  lemma StepKeeps(w: Words, s: Call, e: Event, io: Io)
    requires Good(s)
    ensures Good(Handle(w, s, e, io))
  {
    hide Good, OnTimer, OnPhone, OnUpdated, OnAudio, OnSpeechStarted, OnTranscribed, OnTranscriptionFailed, OnToolCall, OnDone;
    match e
    case Updated => UpdatedKeeps(s, io);
    case Audio(item, valid, ms) => AudioKeeps(s, io, item, valid, ms);
    case SpeechStarted => SpeechStartedKeeps(s, io);
    case Transcribed(item, text) => TranscribedKeeps(w, s, io, item, text);
    case TranscriptionFailed(item) => TranscriptionFailedKeeps(w, s, io, item);
    case Done(id, completed, usage) => DoneKeeps(s, io, id, completed, usage);
    case ToolCall(endCall, valid, withdrawn) => ToolCallKeeps(s, io, endCall, valid, withdrawn);
    case CommittedTurn(item) => AsideKeeps(s, OnCommitted(s, io, item));
    case AssistantTranscript => AsideKeeps(s, Handle(w, s, e, io));
    case Failure => AsideKeeps(s, Handle(w, s, e, io));
    case SocketError => PhoneKeeps(s, io, e);
    case PhoneStop => PhoneKeeps(s, io, e);
    case PhoneMark(_) => PhoneKeeps(s, io, e);
    case PhoneMedia(_) => PhoneKeeps(s, io, e);
    case _ => TimerKeeps(w, s, io, e);
  }

  lemma {:induction false} GoodThroughout(w: Words, start: int, inputs: seq<Input>)
    ensures Good(Run(w, Begin(start), inputs))
  {
    hide Good, Handle;
    if inputs == [] {
      BeginGood(start);
    } else {
      var last := inputs[|inputs| - 1];
      GoodThroughout(w, start, inputs[..|inputs| - 1]);
      StepKeeps(w, Run(w, Begin(start), inputs[..|inputs| - 1]), last.event, last.io);
    }
  }

  lemma BeginGood(start: int)
    ensures Good(Begin(start))
  {
  }

  // ----- Main results -----

  // Whatever the events, a hotel call asks the model for at most nine responses, never
  // beyond the four questions, and counts each distinct response's usage exactly once.
  lemma AtMostNineResponses(w: Words, start: int, inputs: seq<Input>)
    ensures
      var s := Run(w, Begin(start), inputs);
      && Creates(s.sent) <= 9 && s.talk.next <= QUESTIONS && (s.talk.next == QUESTIONS ==> s.talk.closing)
      && Sum(s.sent) == s.totals && NoDuplicates(CountedIds(s.sent))
      && forall i :: 0 <= i < |CountedIds(s.sent)| ==> CountedIds(s.sent)[i] in s.seen
  {
    GoodThroughout(w, start, inputs);
  }

  // Usage is reported complete only when every response asked for was counted.
  lemma CompleteMeansCounted(w: Words, start: int, inputs: seq<Input>)
    requires UsageComplete(Run(w, Begin(start), inputs))
    ensures
      var s := Run(w, Begin(start), inputs);
      Creates(s.sent) == |CountedIds(s.sent)| && Sum(s.sent) == s.totals && NoDuplicates(CountedIds(s.sent))
  {
    GoodThroughout(w, start, inputs);
  }

  // ----- One response at a time, and the token budget -----

  // The call still has room for one more response as long as it runs.
  ghost predicate Roomy(s: Call) { s.over.None? ==> InBudget(s.totals) }

  // When the session is first confirmed, no response is outstanding.
  ghost predicate OpensFirst(s: Call, e: Event) { e.Updated? && s.over.None? && !s.flow.configured ==> s.flow.pending == 0 }

  ghost predicate AllOpenFirst(w: Words, start: int, inputs: seq<Input>) {
    forall i :: 0 <= i < |inputs| ==> OpensFirst(Run(w, Begin(start), inputs[..i]), inputs[i].event)
  }

  ghost predicate Small(e: Event) {
    e.Done? && e.usage.Some? ==> e.usage.value.0 <= RESPONSE_INPUT && e.usage.value.1 <= RESPONSE_OUTPUT
  }

  ghost predicate UnderCaps(t: Totals) { t.input <= MAX_INPUT && t.output <= MAX_OUTPUT }

  lemma RespondSingle(s: Call, io: Io, r: (Talk, Option<Prompt>))
    requires InBudget(s.totals) && s.over.None?
    ensures
      var t := Respond(s, io, r);
      t.totals == s.totals && (s.flow.pending <= 1 ==> t.flow.pending <= 1)
  {
  }

  lemma SettleSingle(w: Words, s: Call, io: Io)
    requires InBudget(s.totals) && s.over.None?
    ensures
      var t := Settle(w, s, io);
      t.totals == s.totals && (s.flow.pending <= 1 ==> t.flow.pending <= 1)
  {
    hide Respond, Replied;
    RespondSingle(s.(hearing := Hearing({}, [], false, None)), io,
                  Replied(w, s.talk, Join(s.hearing.texts), !s.hearing.untranscribed || Join(s.hearing.texts) != ""));
  }

  // Only a counted response changes the totals, and only from a state with room.
  ghost predicate Single(s: Call, e: Event, t: Call) {
    && Roomy(t)
    && (OpensFirst(s, e) && s.flow.pending <= 1 ==> t.flow.pending <= 1)
    && (UnderCaps(s.totals) && Small(e) ==> UnderCaps(t.totals))
  }

  lemma DoneSingle(s: Call, io: Io, id: string, completed: bool, usage: Option<(nat, nat)>)
    requires Roomy(s) && s.over.None?
    ensures Single(s, Done(id, completed, usage), OnDone(s, io, id, completed, usage))
  {
  }

  lemma StepSingle(w: Words, s: Call, e: Event, io: Io)
    requires Roomy(s)
    ensures Single(s, e, Handle(w, s, e, io))
  {
    hide Settle, Respond, Silent, OnDone;
    if s.over.None? {
      match e
      case Done(id, completed, usage) => DoneSingle(s, io, id, completed, usage);
      case TranscriptTimer => SettleSingle(w, s.(hearing := s.hearing.(untranscribed := true)), io);
      case SilenceTimer => RespondSingle(s.(timers := s.timers.(silenceAt := None)), io, Silent(s.talk));
      case Transcribed(item, text) =>
        SettleSingle(w, Touch(s, io.now).(hearing := s.hearing.(awaiting := s.hearing.awaiting - {item},
                     texts := if w.trim(text) != "" then s.hearing.texts + [w.trim(text)] else s.hearing.texts)), io);
      case TranscriptionFailed(item) =>
        SettleSingle(w, s.(hearing := s.hearing.(awaiting := s.hearing.awaiting - {item}, untranscribed := true)), io);
      case _ =>
    }
  }

  lemma {:induction false} RoomyThroughout(w: Words, start: int, inputs: seq<Input>)
    ensures Roomy(Run(w, Begin(start), inputs))
  {
    hide Handle, Roomy;
    if inputs == [] {
      assert Roomy(Begin(start)) by { BeginRoomy(start); }
    } else {
      var last := inputs[|inputs| - 1];
      RoomyThroughout(w, start, inputs[..|inputs| - 1]);
      StepSingle(w, Run(w, Begin(start), inputs[..|inputs| - 1]), last.event, last.io);
    }
  }

  lemma BeginRoomy(start: int)
    ensures Roomy(Begin(start))
  {
  }

  // The totals never pass the call's token limits while each response keeps to its own.
  lemma {:induction false} TokensStayUnderLimits(w: Words, start: int, inputs: seq<Input>)
    requires forall i :: 0 <= i < |inputs| ==> Small(inputs[i].event)
    ensures UnderCaps(Run(w, Begin(start), inputs).totals)
  {
    hide Handle, Roomy;
    if inputs != [] {
      var last := inputs[|inputs| - 1];
      TokensStayUnderLimits(w, start, inputs[..|inputs| - 1]);
      RoomyThroughout(w, start, inputs[..|inputs| - 1]);
      StepSingle(w, Run(w, Begin(start), inputs[..|inputs| - 1]), last.event, last.io);
    }
  }

  lemma {:induction false} SingleIfOpenFirst(w: Words, start: int, inputs: seq<Input>)
    requires AllOpenFirst(w, start, inputs)
    ensures Run(w, Begin(start), inputs).flow.pending <= 1
  {
    hide Handle, Roomy, OpensFirst;
    if inputs != [] {
      var before, last := inputs[..|inputs| - 1], inputs[|inputs| - 1];
      forall i | 0 <= i < |before|
        ensures OpensFirst(Run(w, Begin(start), before[..i]), before[i].event)
      {
        assert before[..i] == inputs[..i];
      }
      SingleIfOpenFirst(w, start, before);
      RoomyThroughout(w, start, before);
      assert OpensFirst(Run(w, Begin(start), inputs[..|before|]), last.event);
      StepSingle(w, Run(w, Begin(start), before), last.event, last.io);
    }
  }

  lemma SecondRequest(w: Words, s: Call, e: Event, io: Io)
    requires Roomy(s) && !OpensFirst(s, e)
    ensures Handle(w, s, e, io).flow.pending == s.flow.pending + 1 > 1
  {
  }

  // At most one response is ever outstanding if and only if none is when the session is first
  // confirmed: the opening is sent without looking.
  lemma OneResponseAtATime(w: Words, start: int, inputs: seq<Input>)
    ensures
      (forall n :: 0 <= n <= |inputs| ==> Run(w, Begin(start), inputs[..n]).flow.pending <= 1)
      <==> AllOpenFirst(w, start, inputs)
  {
    hide Handle, Roomy, OpensFirst;
    if AllOpenFirst(w, start, inputs) {
      forall n | 0 <= n <= |inputs|
        ensures Run(w, Begin(start), inputs[..n]).flow.pending <= 1
      {
        forall i | 0 <= i < n
          ensures OpensFirst(Run(w, Begin(start), inputs[..n][..i]), inputs[..n][i].event)
        {
          assert inputs[..n][..i] == inputs[..i];
        }
        SingleIfOpenFirst(w, start, inputs[..n]);
      }
    } else {
      var i :| 0 <= i < |inputs| && !OpensFirst(Run(w, Begin(start), inputs[..i]), inputs[i].event);
      RoomyThroughout(w, start, inputs[..i]);
      SecondRequest(w, Run(w, Begin(start), inputs[..i]), inputs[i].event, inputs[i].io);
      assert inputs[..i + 1][..i] == inputs[..i];
      assert Run(w, Begin(start), inputs[..i + 1]).flow.pending > 1;
    }
  }

  lemma RunNone(w: Words, s: Call)
    ensures Run(w, s, []) == s
  {
  }

  lemma AskedFirst(w: Words, io: Io)
    requires io == Io(5000, true, true, true)
    ensures
      var s := Handle(w, Begin(0), CommittedTurn("a"), io.(now := 0));
      s == Begin(0).(hearing := s.hearing, timers := s.timers) && s.hearing == Hearing({"a"}, [], false, Some(TRANSCRIPT_MS))
  {
  }

  lemma AnsweredLate(w: Words, s: Call, io: Io)
    requires io == Io(5000, true, true, true)
    requires s == Begin(0).(hearing := Hearing({"a"}, [], false, Some(TRANSCRIPT_MS)), timers := s.timers)
    ensures var t := Handle(w, s, TranscriptTimer, io); t.flow.pending == 1 && t.over.None? && !t.flow.configured && t.totals == Totals(0, 0)
  {
    assert Join(s.hearing.texts) == "";
  }

  lemma OpenedToo(w: Words, s: Call, io: Io)
    requires s.flow.pending == 1 && s.over.None? && !s.flow.configured && s.totals == Totals(0, 0) && io == Io(5000, true, true, true)
    ensures Handle(w, s, Updated, io).flow.pending == 2
  {
  }

  // The condition can fail: a staff turn that is answered before the session is confirmed.
  lemma TwoOutstanding(w: Words)
    ensures
      var io := Io(5000, true, true, true);
      var early := [Input(CommittedTurn("a"), io.(now := 0)), Input(TranscriptTimer, io), Input(Updated, io)];
      Run(w, Begin(0), early).flow.pending == 2
  {
    hide Run, Handle;
    var io := Io(5000, true, true, true);
    var a, b, c := Input(CommittedTurn("a"), io.(now := 0)), Input(TranscriptTimer, io), Input(Updated, io);
    RunNone(w, Begin(0));
    RunMore(w, Begin(0), [], a);
    RunMore(w, Begin(0), [a], b);
    RunMore(w, Begin(0), [a, b], c);
    AskedFirst(w, io);
    AnsweredLate(w, Handle(w, Begin(0), a.event, a.io), io);
    OpenedToo(w, Handle(w, Handle(w, Begin(0), a.event, a.io), b.event, b.io), io);
    assert [] + [a] == [a] && [a] + [b] == [a, b] && [a, b] + [c] == [a, b, c];
  }

  lemma RunMore(w: Words, s: Call, before: seq<Input>, last: Input)
    ensures Run(w, s, before + [last]) == Handle(w, Run(w, s, before), last.event, last.io)
  {
    assert (before + [last])[..|before|] == before;
  }
}
