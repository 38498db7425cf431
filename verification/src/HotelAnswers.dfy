// What the hotel's staff can count on: each settled turn gets the reply the dialog has for it, a
// prompt that has to wait goes out next, and a dialog that closes says goodbye once and then
// asks nothing more.
module HotelAnswers {
  import opened Prelude
  import opened HotelDialog
  import opened HotelCall

  // ----- A staff turn -----

  // e is the last thing the turn waited for: its last transcript or failure, or the end of the wait.
  ghost predicate Settles(s: Call, e: Event, io: Io) {
    || (e.Transcribed? && io.emit && s.hearing.awaiting == {e.item})
    || (e.TranscriptionFailed? && s.hearing.awaiting == {e.item})
    || (e.TranscriptTimer? && s.hearing.dueAt.Some? && s.hearing.dueAt.value <= io.now)
  }

  ghost function Texts(w: Words, s: Call, e: Event): seq<string> {
    if e.Transcribed? && w.trim(e.text) != "" then s.hearing.texts + [w.trim(e.text)] else s.hearing.texts
  }

  // What was heard of the turn: nothing only if something failed or did not come in time.
  ghost function TurnHeard(w: Words, s: Call, e: Event): Turn {
    var text := Join(Texts(w, s, e));
    if text == "" && (s.hearing.untranscribed || !e.Transcribed?) then Untranscribed else Said(text)
  }

  // Where the text of segment i begins in the whole turn.
  function Offset(texts: seq<string>, i: nat): nat
    requires i <= |texts|
  {
    if i == 0 then 0 else Offset(texts, i - 1) + |texts[i - 1]| + 1
  }

  lemma {:induction false} OffsetsAgree(texts: seq<string>, n: nat, i: nat)
    requires i <= n <= |texts|
    ensures Offset(texts[..n], i) == Offset(texts, i) <= Offset(texts, n)
  {
    if i > 0 { OffsetsAgree(texts, n, i - 1); }
    if i < n { OffsetsAgree(texts, n - 1, i); OffsetsAgree(texts, n - 1, n - 1); }
  }

  // The turn's text is its segments in order, with one space between each two.
  lemma {:induction false} SegmentsInOrder(texts: seq<string>, i: nat)
    requires i < |texts|
    ensures |Join(texts)| == Offset(texts, |texts|) - 1
    ensures Offset(texts, i) + |texts[i]| <= |Join(texts)| && Join(texts)[Offset(texts, i)..Offset(texts, i) + |texts[i]|] == texts[i]
    ensures i > 0 ==> Join(texts)[Offset(texts, i) - 1] == ' '
  {
    hide Join, Offset;
    var n := |texts|;
    JoinMore(texts);
    if n > 1 {
      var before := texts[..n - 1];
      SegmentsInOrder(before, if i < n - 1 then i else n - 2);
      OffsetsAgree(texts, n - 1, n - 1);
      if i < n - 1 {
        OffsetsAgree(texts, n - 1, i);
        assert Join(texts)[Offset(texts, i)..Offset(texts, i) + |texts[i]|] == Join(before)[Offset(before, i)..Offset(before, i) + |before[i]|];
      }
    }
  }

  lemma JoinMore(texts: seq<string>)
    requires texts != []
    ensures
      var n := |texts|;
      && Join(texts) == (if n == 1 then texts[0] else Join(texts[..n - 1]) + " " + texts[n - 1])
      && Offset(texts, n) == Offset(texts, n - 1) + |texts[n - 1]| + 1 && Offset(texts, 0) == 0
  {
  }

  // The prompt is asked of the model, as long as the call has tokens left for it.
  ghost predicate Sends(s: Call, t: Call, prompt: Prompt, io: Io) {
    if s.totals.input > 38000 || s.totals.output > 24488 then t.over == Some(TokenBudgetLimit) && t.sent == s.sent
    else t.sent == s.sent + [Create(prompt)] && t.flow.pending == s.flow.pending + 1 && (t.over.None? <==> io.azure)
  }

  // A prompt is sent, or waits for the outstanding response, in place of one that waited before.
  ghost predicate Says(s: Call, t: Call, o: Option<Prompt>, io: Io) {
    if o.None? then t.sent == s.sent && t.flow == s.flow && t.over.None?
    else if s.flow.pending > 0 then t.sent == s.sent && t.flow == s.flow.(queued := o) && t.over.None?
    else Sends(s, t, o.value, io) && t.flow.queued == s.flow.queued
  }

  lemma RespondSays(s: Call, io: Io, r: (Talk, Option<Prompt>))
    requires s.over.None?
    ensures
      var t := Respond(s, io, r);
      && t.talk == r.0 && Says(s, t, r.1, io)
      && t.hearing == s.hearing && t.timers == s.timers && t.playback == s.playback && t.totals == s.totals && t.seen == s.seen
      && t.flow.ending == s.flow.ending && t.flow.configured == s.flow.configured
  {
  }

  // A staff turn that is settled is answered as the dialog has it, and the next one starts afresh.
  ghost predicate TurnAnswered(w: Words, s: Call, t: Call, e: Event, io: Io) {
    exists o: Option<Prompt> ::
      && FitsTurn(w, s.talk, TurnHeard(w, s, e), t.talk, o) && Says(s, t, o, io)
      && t.hearing == Hearing({}, [], false, None)
  }

  lemma TurnIsAnswered(w: Words, s: Call, e: Event, io: Io)
    requires s.over.None? && ValidTalk(s.talk) && Settles(s, e, io)
    ensures TurnAnswered(w, s, Handle(w, s, e, io), e, io)
  {
    hide Replied, FitsTurn, Join, Says, Respond, ValidTalk;
    var text := Join(Texts(w, s, e));
    var transcribed := !(s.hearing.untranscribed || !e.Transcribed?) || text != "";
    var base := (if e.Transcribed? then Touch(s, io.now) else s).(hearing := Hearing({}, [], false, None));
    var r := Replied(w, s.talk, text, transcribed);
    assert Handle(w, s, e, io) == Respond(base, io, r) by { Settled(w, s, e, io); }
    RespondSays(base, io, r);
    SaysOf(s, base, Respond(base, io, r), r.1, io);
    EveryTurnHasItsReply(w, s.talk, text, transcribed);
    assert TurnHeard(w, s, e) == if transcribed then Said(text) else Untranscribed;
  }

  lemma SaysOf(s: Call, base: Call, t: Call, o: Option<Prompt>, io: Io)
    requires Says(base, t, o, io) && base == s.(hearing := base.hearing, timers := base.timers)
    ensures Says(s, t, o, io)
  {
  }

  lemma Settled(w: Words, s: Call, e: Event, io: Io)
    requires s.over.None? && Settles(s, e, io)
    ensures
      var text := Join(Texts(w, s, e));
      Handle(w, s, e, io)
      == Respond((if e.Transcribed? then Touch(s, io.now) else s).(hearing := Hearing({}, [], false, None)), io,
                 Replied(w, s.talk, text, !(s.hearing.untranscribed || !e.Transcribed?) || text != ""))
  {
    hide Replied, Join, Respond;
    if !e.TranscriptTimer? { assert s.hearing.awaiting - {e.item} == {}; }
  }

  // What is heard before that is kept for when the turn is settled.
  lemma TurnIsCollected(w: Words, s: Call, e: Event, io: Io)
    requires s.over.None? && !Settles(s, e, io) && (e.Transcribed? ==> io.emit)
    requires e.Transcribed? || e.TranscriptionFailed? || e.TranscriptTimer?
    ensures
      var t := Handle(w, s, e, io);
      && t.sent == s.sent && t.talk == s.talk && t.flow == s.flow && t.over.None?
      && t.hearing.dueAt == s.hearing.dueAt
      && if e.TranscriptTimer? || e.item !in s.hearing.awaiting then t.hearing == s.hearing
         else
           && t.hearing.awaiting + {e.item} == s.hearing.awaiting && e.item !in t.hearing.awaiting
           && t.hearing.texts == Texts(w, s, e)
           && (t.hearing.untranscribed <==> s.hearing.untranscribed || e.TranscriptionFailed?)
  {
    hide Settle;
    if !e.TranscriptTimer? && e.item in s.hearing.awaiting {
      assert s.hearing.awaiting - {e.item} + {e.item} == s.hearing.awaiting;
    }
  }

  // ----- Silence -----

  // When the wait for an answer is over and none came, that is a non-answer.
  ghost predicate SilenceAnswered(w: Words, s: Call, t: Call, io: Io) {
    exists o: Option<Prompt> :: FitsTurn(w, s.talk, Quiet, t.talk, o) && Says(s, t, o, io) && t.timers.silenceAt.None?
  }

  lemma SilenceIsAnswered(w: Words, s: Call, io: Io)
    requires s.over.None? && ValidTalk(s.talk)
    ensures
      var t := Handle(w, s, SilenceTimer, io);
      if s.timers.silenceAt.None? || s.timers.silenceAt.value > io.now then t == s
      else if s.flow.ending || s.flow.pending > 0 || s.hearing.awaiting != {} then t == s.(timers := s.timers.(silenceAt := None))
      else SilenceAnswered(w, s, t, io)
  {
    hide Silent, FitsTurn, Says, Respond, ValidTalk;
    var base := s.(timers := s.timers.(silenceAt := None));
    RespondSays(base, io, Silent(s.talk));
    SaysOf(s, base, Respond(base, io, Silent(s.talk)), Silent(s.talk).1, io);
    EveryTurnHasItsReply(w, s.talk, "", true);
  }

  // ----- The other events -----

  // The first confirmation of the session asks for the opening; later ones do nothing.
  lemma SessionOpens(w: Words, s: Call, io: Io)
    requires s.over.None? && s.talk.next <= QUESTIONS
    ensures
      var t := Handle(w, s, Updated, io);
      if s.flow.configured then t == s
      else t.flow.configured && t.talk == s.talk && Sends(s, t, Prompt(s.talk.next, s.talk.notes, Ask(0, true)), io)
  {
  }

  // A committed segment is waited for, unless the call or the dialog closes.
  lemma SegmentIsAwaited(w: Words, s: Call, item: string, io: Io)
    requires s.over.None?
    ensures
      var t := Handle(w, s, CommittedTurn(item), io);
      if s.flow.ending || s.talk.closing then t == s
      else
        && t.hearing == s.hearing.(awaiting := s.hearing.awaiting + {item}, dueAt := Some(io.now + 3000))
        && t.timers.silenceAt.None? && t.sent == s.sent && t.talk == s.talk && t.flow == s.flow && t.over.None?
  {
  }

  ghost predicate Counts(s: Call, e: Event, io: Io) {
    && e.Done? && e.id != "" && e.id !in s.seen && s.flow.pending > 0 && io.emit
    && e.usage.Some? && e.usage.value.0 <= 12000 && e.usage.value.1 <= 512
  }

  // What follows a counted response: the call ends when its tokens are used up, or when the last
  // audio was heard; else the waiting prompt goes out; else the answer is waited for, from the
  // end of the playback on.
  ghost predicate Follows(s: Call, t: Call, io: Io) {
    if s.totals.input > 38000 || s.totals.output > 24488 then t == s.(over := Some(TokenBudgetLimit))
    else if s.flow.ending && s.flow.markHeard then t == s.(over := Some(ResearchFinished))
    else if s.flow.queued.Some? && !s.flow.ending then
      Sends(s, t, s.flow.queued.value, io) && t.flow == s.flow.(queued := None, pending := s.flow.pending + 1)
    else if s.flow.pending == 0 && !s.flow.ending && !s.talk.closing && s.hearing.awaiting == {} then
      t == s.(timers := s.timers.(silenceAt := t.timers.silenceAt)) && t.timers.silenceAt == Some(Max(io.now, s.playback.end) + 10000)
    else t == s
  }

  // A response that counts is added to the totals, and leads to what follows it.
  ghost predicate CountedOnce(s: Call, t: Call, e: Event, io: Io)
    requires e.Done? && e.usage.Some? && s.flow.pending > 0
  {
    exists u: Call ::
      && u.sent == s.sent + [Counted(e.id, e.usage.value.0, e.usage.value.1)] && u.seen == s.seen + {e.id}
      && u.totals == Totals(s.totals.input + e.usage.value.0, s.totals.output + e.usage.value.1)
      && u.flow == s.flow.(pending := s.flow.pending - 1, invalid := s.flow.invalid || !e.completed)
      && u == s.(sent := u.sent, seen := u.seen, totals := u.totals, flow := u.flow)
      && Follows(u, t, io) && t.talk == s.talk
  }

  lemma DoneIsCounted(w: Words, s: Call, e: Event, io: Io)
    requires s.over.None? && Counts(s, e, io)
    ensures CountedOnce(s, Handle(w, s, e, io), e, io)
  {
    hide Follows, FollowUp, Request;
    var u := s.(sent := s.sent + [Counted(e.id, e.usage.value.0, e.usage.value.1)], seen := s.seen + {e.id},
                totals := Totals(s.totals.input + e.usage.value.0, s.totals.output + e.usage.value.1),
                flow := s.flow.(pending := s.flow.pending - 1, invalid := s.flow.invalid || !e.completed));
    FollowingOn(u, Handle(w, s, e, io), io);
  }

  lemma FollowingOn(u: Call, t: Call, io: Io)
    requires u.over.None?
    requires t == if !InBudget(u.totals) then End(u, TokenBudgetLimit) else if u.flow.ending && u.flow.markHeard then End(u, ResearchFinished)
                  else FollowUp(u, io)
    ensures Follows(u, t, io) && t.talk == u.talk
  {
  }

  // A response that does not count ends the call, except that a repeated one is ignored.
  lemma UncountedEnds(w: Words, s: Call, e: Event, io: Io)
    requires s.over.None? && e.Done? && !Counts(s, e, io)
    ensures
      var t := Handle(w, s, e, io);
      if e.id != "" && e.id in s.seen then t == s
      else
        && t.talk == s.talk
        && t.over == Some(if e.id == "" then MissingResponseId else if s.flow.pending == 0 then UnsolicitedResponse
                          else if e.usage.None? then MissingUsage else if !io.emit then EventDeliveryFailed else ResponseBudgetExceeded)
        && (t.flow.invalid <==> s.flow.invalid || t.over != Some(EventDeliveryFailed) || !e.completed)
  {
  }

  lemma PhoneAndTimers(w: Words, s: Call, e: Event, io: Io)
    requires s.over.None?
    ensures
      var t := Handle(w, s, e, io);
      && (e.PhoneMedia? ==>
            if !s.flow.configured || s.flow.ending || !e.inbound then t == s
            else t.sent == s.sent + [Microphone] && (t.over.None? <==> io.azure))
      && (e.PhoneMark? ==>
            if !s.flow.ending || !e.final then t == s
            else t.flow.markHeard && t.sent == s.sent && t.over == if s.flow.pending == 0 then Some(ResearchFinished) else None)
      && (e.AssistantTranscript? ==> if io.emit then t == s else t.over == Some(EventDeliveryFailed))
      && (e.Failure? ==> t.over == Some(if io.emit then AzureError else EventDeliveryFailed))
      && (e.PhoneStop? ==> t.over == Some(RemoteHangup)) && (e.SocketError? ==> t.over == Some(Disconnected))
      && (e.Deadline? ==> t.over == Some(DurationLimit))
      && (e.IdleTimer? ==> t.over == if s.timers.idleAt <= io.now then Some(ConversationIdle) else None)
      && (e.DrainTimer? ==> (t.over == if s.timers.drainAt.Some? && s.timers.drainAt.value <= io.now then Some(ResearchFinished) else None))
  {
  }

  // Audio is played to the phone and measured, from when its item began, until the call ends.
  lemma AudioIsPlayed(w: Words, s: Call, item: string, valid: bool, ms: nat, io: Io)
    requires s.over.None?
    ensures
      var t := Handle(w, s, Audio(item, valid, ms), io);
      && t.timers.idleAt == io.now + 40000
      && if s.flow.ending then t.sent == s.sent && t.over.None? && t.playback == s.playback
         else if !valid then t.over == Some(InvalidAudio) && t.sent == s.sent
         else
           && t.sent == s.sent + [Play(item, ms)] && (t.over.None? <==> io.phone) && t.playback.item == item
           && t.playback.end == Max(io.now, s.playback.end) + ms
           && if item == s.playback.item then t.playback.start == s.playback.start && t.playback.length == s.playback.length + ms
              else t.playback.start == io.now && t.playback.length == ms
  {
  }

  // When the staff starts to speak, playback is cleared, the wait for an answer is off, and the
  // model is told how much can have been heard.
  lemma SpeechBreaksIn(w: Words, s: Call, io: Io)
    requires s.over.None?
    ensures
      var t := Handle(w, s, SpeechStarted, io);
      && t.timers.idleAt == io.now + 40000 && t.talk == s.talk && t.flow == s.flow && t.hearing == s.hearing
      && if s.flow.ending then t.sent == s.sent && t.over.None? && t.timers.silenceAt == s.timers.silenceAt
         else
           && t.timers.silenceAt.None? && t.playback.end == io.now
           && if !io.phone || s.playback.item == "" then t.sent == s.sent + [ClearPlayback] && (t.over.None? <==> io.phone)
              else
                exists heard: int :: CanHaveHeard(s.playback, io.now, heard)
                  && t.sent == s.sent + [ClearPlayback, Truncate(s.playback.item, heard)]
                  && (t.over.None? <==> io.azure) && (t.over.None? ==> t.playback.item == "")
  {
    assert CanHaveHeard(s.playback, io.now, Heard(s.playback, io.now));
  }

  // The time since the item began, but not more than was sent of it, and never less than nothing.
  ghost predicate CanHaveHeard(b: Playback, now: int, heard: int) {
    && 0 <= heard <= b.length
    && (0 <= now - b.start <= b.length ==> heard == now - b.start) && (now - b.start > b.length ==> heard == b.length)
    && (now < b.start ==> heard == 0)
  }

  // The model may end the call by its one tool: the rest is played out, for 15 seconds at most.
  lemma EndCallDrains(w: Words, s: Call, e: Event, io: Io)
    requires s.over.None? && e.ToolCall?
    ensures
      var t := Handle(w, s, e, io);
      && t.talk == s.talk && t.flow.pending == s.flow.pending && t.flow.queued == s.flow.queued
      && if !e.endCall || !e.valid || !io.emit || e.withdrawn then
           && t.sent == s.sent && t.flow == s.flow
           && t.over == Some(if !e.endCall then UnexpectedTool else if !e.valid then InvalidTool
                             else if !io.emit then EventDeliveryFailed else ConsentWithdrawn)
         else
           && t.sent == s.sent + [EndMark] && t.flow.ending
           && (if io.phone then t.over.None? && t.timers.drainAt == Some(io.now + 15000) else t.over == Some(TwilioWriteFailed))
  {
  }

  // ----- Over whole calls -----

  function At(w: Words, start: int, inputs: seq<Input>, n: nat): Call
    requires n <= |inputs|
  {
    Run(w, Begin(start), inputs[..n])
  }

  lemma NextAt(w: Words, start: int, inputs: seq<Input>, n: nat)
    requires n < |inputs|
    ensures At(w, start, inputs, n + 1) == Handle(w, At(w, start, inputs, n), inputs[n].event, inputs[n].io)
  {
    assert inputs[..n + 1][..n] == inputs[..n];
  }

  predicate IsGoodbye(m: Sent) { m.Create? && m.prompt.say.Goodbye? }

  function Goodbyes(sent: seq<Sent>): nat {
    if sent == [] then 0 else Goodbyes(sent[..|sent| - 1]) + if IsGoodbye(sent[|sent| - 1]) then 1 else 0
  }

  function Waiting(s: Call): nat { if s.flow.queued.Some? && s.flow.queued.value.say.Goodbye? then 1 else 0 }

  // A dialog that is not closing has said no goodbye; one that closes has said it once or has it
  // waiting. A prompt only waits for an outstanding response.
  ghost predicate Parting(s: Call) {
    && ValidTalk(s.talk)
    && (!s.talk.closing ==> Goodbyes(s.sent) + Waiting(s) == 0)
    && (s.talk.closing ==> Goodbyes(s.sent) + Waiting(s) <= 1 && (s.over.None? ==> Goodbyes(s.sent) + Waiting(s) == 1))
    && (s.over.None? && s.flow.queued.Some? && !s.flow.ending ==> s.flow.pending > 0 && (s.talk.closing ==> Waiting(s) == 1))
  }

  lemma GoodbyesAdd(sent: seq<Sent>, m: Sent)
    ensures Goodbyes(sent + [m]) == Goodbyes(sent) + if IsGoodbye(m) then 1 else 0
  {
    assert (sent + [m])[..|sent|] == sent;
  }

  // From s to t the dialog stays as closed as it was, and once it is closed only goodbyes are asked for.
  ghost predicate GoesOn(s: Call, t: Call) {
    && Parting(t) && (s.flow.configured ==> t.flow.configured) && (s.talk.closing ==> t.talk.closing) && OnlyGoodbyes(s, t)
  }

  ghost predicate OnlyGoodbyes(s: Call, t: Call) {
    && |s.sent| <= |t.sent| && t.sent[..|s.sent|] == s.sent
    && (s.talk.closing && s.flow.configured ==>
          forall i :: |s.sent| <= i < |t.sent| && t.sent[i].Create? ==> t.sent[i].prompt.say.Goodbye?)
  }

  // Nothing the dialog depends on changes from s to t, and nothing is asked.
  ghost predicate Beside(s: Call, t: Call) {
    && t.talk == s.talk && t.flow.queued == s.flow.queued && (t.over.Some? || t.flow.pending == s.flow.pending)
    && (s.flow.ending ==> t.flow.ending) && (s.over.Some? ==> t.over.Some?) && (s.flow.configured <==> t.flow.configured)
    && Extends(s.sent, t.sent)
  }

  // b is a and more, but nothing asked of the model.
  ghost predicate Extends(a: seq<Sent>, b: seq<Sent>) {
    |a| <= |b| && b[..|a|] == a && forall i :: |a| <= i < |b| ==> !b[i].Create?
  }

  lemma {:induction false} NoneAdded(a: seq<Sent>, b: seq<Sent>)
    requires Extends(a, b)
    ensures Goodbyes(b) == Goodbyes(a)
  {
    if |a| < |b| { NoneAdded(a, b[..|b| - 1]); } else { assert a == b; }
  }

  lemma BesideGoesOn(s: Call, t: Call)
    requires Parting(s) && Beside(s, t)
    ensures GoesOn(s, t)
  {
    hide ValidTalk, Goodbyes;
    NoneAdded(s.sent, t.sent);
  }

  lemma QuietStaysOpen(t: Talk, r: (Talk, Option<Prompt>))
    requires ValidTalk(t) && Progress(t, r) && r.1.None?
    ensures r.0.closing == t.closing
  {
    hide GoodNotes;
  }

  // A turn of the dialog that is said, or queued.
  lemma RespondGoesOn(s: Call, io: Io, r: (Talk, Option<Prompt>))
    requires Parting(s) && s.over.None? && Progress(s.talk, r)
    ensures GoesOn(s, Respond(s, io, r))
  {
    hide ValidTalk, Left, Goodbyes, Parting;
    if r.1.None? {
      QuietGoesOn(s, s.(talk := r.0), r);
    } else if s.flow.pending > 0 {
      QueuedGoesOn(s, s.(talk := r.0, flow := s.flow.(queued := r.1)), r);
    } else {
      SaidGoesOn(s, Respond(s, io, r), io, r);
    }
  }

  lemma QuietGoesOn(s: Call, t: Call, r: (Talk, Option<Prompt>))
    requires Parting(s) && s.over.None? && Progress(s.talk, r) && r.1.None? && t == s.(talk := r.0)
    ensures GoesOn(s, t)
  {
    hide ValidTalk, Left, Goodbyes;
    QuietStaysOpen(s.talk, r);
  }

  lemma QueuedGoesOn(s: Call, t: Call, r: (Talk, Option<Prompt>))
    requires Parting(s) && s.over.None? && Progress(s.talk, r) && r.1.Some?
    requires s.flow.pending > 0 && t == s.(talk := r.0, flow := s.flow.(queued := r.1))
    ensures GoesOn(s, t)
  {
    hide ValidTalk, Left, Goodbyes;
  }

  lemma SaidGoesOn(s: Call, t: Call, io: Io, r: (Talk, Option<Prompt>))
    requires Parting(s) && s.over.None? && Progress(s.talk, r) && r.1.Some?
    requires s.flow.pending == 0 && t == Request(s.(talk := r.0), io, r.1.value)
    ensures GoesOn(s, t)
  {
    hide ValidTalk, Left, Goodbyes;
    GoodbyesAdd(s.sent, Create(r.1.value));
  }

  lemma SettleGoesOn(w: Words, s: Call, e: Event, io: Io)
    requires Parting(s) && s.over.None? && Settles(s, e, io)
    ensures GoesOn(s, Handle(w, s, e, io))
  {
    hide Replied, Join, Respond, Progress, ValidTalk, Goodbyes;
    Settled(w, s, e, io);
    var text := Join(Texts(w, s, e));
    var transcribed := !(s.hearing.untranscribed || !e.Transcribed?) || text != "";
    var base := (if e.Transcribed? then Touch(s, io.now) else s).(hearing := Hearing({}, [], false, None));
    EveryTurnMakesProgress(w, s.talk, text, transcribed);
    RespondGoesOn(base, io, Replied(w, s.talk, text, transcribed));
  }

  lemma SilenceGoesOn(w: Words, s: Call, io: Io)
    requires Parting(s) && s.over.None?
    ensures GoesOn(s, Handle(w, s, SilenceTimer, io))
  {
    hide Silent, Respond, Progress, ValidTalk, Parting;
    var base := s.(timers := s.timers.(silenceAt := None));
    BesideGoesOn(s, s);
    BesideGoesOn(s, base);
    ValidIn(s);
    EveryTurnMakesProgress(w, s.talk, "", true);
    RespondGoesOn(base, io, Silent(s.talk));
  }

  lemma ValidIn(s: Call)
    requires Parting(s)
    ensures ValidTalk(s.talk)
  {
  }

  lemma OpeningGoesOn(w: Words, s: Call, io: Io)
    requires Parting(s) && s.over.None?
    ensures GoesOn(s, Handle(w, s, Updated, io))
  {
    hide ValidTalk, Goodbyes;
    if !s.flow.configured { GoodbyesAdd(s.sent, Create(Opening(s.talk))); }
  }

  lemma DoneGoesOn(w: Words, s: Call, e: Event, io: Io)
    requires Parting(s) && s.over.None? && e.Done?
    ensures GoesOn(s, Handle(w, s, e, io))
  {
    hide Parting, GoesOn, Follows;
    if Counts(s, e, io) {
      hide Handle, Counts;
      DoneIsCounted(w, s, e, io);
      CountedGoesOn(w, s, Handle(w, s, e, io), e, io);
    } else {
      hide Handle, Counts;
      UncountedBeside(w, s, e, io);
      BesideGoesOn(s, Handle(w, s, e, io));
    }
  }

  lemma CountedGoesOn(w: Words, s: Call, t: Call, e: Event, io: Io)
    requires Parting(s) && s.over.None? && Counts(s, e, io) && CountedOnce(s, t, e, io)
    ensures GoesOn(s, t)
  {
    hide ValidTalk, Goodbyes, Follows;
    var u: Call :| u.sent == s.sent + [Counted(e.id, e.usage.value.0, e.usage.value.1)]
                   && u.flow == s.flow.(pending := s.flow.pending - 1, invalid := s.flow.invalid || !e.completed)
                   && u == s.(sent := u.sent, seen := u.seen, totals := u.totals, flow := u.flow)
                   && Follows(u, t, io) && t.talk == s.talk;
    NoneAdded(s.sent, u.sent);
    FollowsGoesOn(s, u, t, io);
  }

  lemma FollowsGoesOn(s: Call, u: Call, t: Call, io: Io)
    requires Parting(s) && s.over.None? && Follows(u, t, io) && t.talk == u.talk
    requires Extends(s.sent, u.sent) && Goodbyes(u.sent) == Goodbyes(s.sent)
    requires u == s.(sent := u.sent, seen := u.seen, totals := u.totals, flow := u.flow)
    requires s.flow.pending > 0 && u.flow == s.flow.(pending := s.flow.pending - 1, invalid := u.flow.invalid)
    ensures GoesOn(s, t)
  {
    hide ValidTalk, Goodbyes;
    if u.flow.queued.Some? { GoodbyesAdd(u.sent, Create(u.flow.queued.value)); }
  }

  lemma UncountedBeside(w: Words, s: Call, e: Event, io: Io)
    requires s.over.None? && e.Done? && !Counts(s, e, io)
    ensures Beside(s, Handle(w, s, e, io))
  {
    hide Account;
    if e.id != "" && e.id !in s.seen && s.flow.pending > 0 && e.usage.Some? {
      var u := s.(seen := s.seen + {e.id}, flow := s.flow.(pending := s.flow.pending - 1));
      AccountBeside(if e.completed then u else Invalid(u), io, e.id, e.usage.value.0, e.usage.value.1);
    }
  }

  lemma AccountBeside(s: Call, io: Io, id: string, input: nat, output: nat)
    requires !(io.emit && input <= 12000 && output <= 512)
    ensures
      var t := Account(s, io, id, input, output);
      && t.over.Some? && t.talk == s.talk && t.sent == s.sent + [Counted(id, input, output)]
      && t.flow == s.flow.(invalid := t.flow.invalid)
  {
  }

  lemma CollectedBeside(w: Words, s: Call, e: Event, io: Io)
    requires s.over.None? && !Settles(s, e, io) && ((e.Transcribed? && io.emit) || e.TranscriptionFailed? || e.TranscriptTimer?)
    ensures Beside(s, Handle(w, s, e, io))
  {
    hide Handle, Settles;
    TurnIsCollected(w, s, e, io);
  }

  lemma SoundBeside(w: Words, s: Call, e: Event, io: Io)
    requires s.over.None? && (e.Audio? || e.SpeechStarted?)
    ensures Beside(s, Handle(w, s, e, io))
  {
    hide Heard;
  }

  lemma OthersBeside(w: Words, s: Call, e: Event, io: Io)
    requires s.over.None? && !e.Updated? && !e.Done? && !e.SilenceTimer? && !Settles(s, e, io)
    ensures Beside(s, Handle(w, s, e, io))
  {
    hide Settle, OnAudio, OnSpeechStarted;
    if (e.Transcribed? && io.emit) || e.TranscriptionFailed? || e.TranscriptTimer? { CollectedBeside(w, s, e, io); }
    if e.Audio? || e.SpeechStarted? {
      hide Handle;
      SoundBeside(w, s, e, io);
    }
  }

  lemma StepGoesOn(w: Words, s: Call, e: Event, io: Io)
    requires Parting(s)
    ensures GoesOn(s, Handle(w, s, e, io))
  {
    hide Parting, GoesOn, Settles, Beside;
    if s.over.Some? {
      Same(s);
      BesideGoesOn(s, s);
    }
    else {
      hide Handle;
      if e.Updated? { OpeningGoesOn(w, s, io); }
      else if e.Done? { DoneGoesOn(w, s, e, io); }
      else if e.SilenceTimer? { SilenceGoesOn(w, s, io); }
      else if Settles(s, e, io) { SettleGoesOn(w, s, e, io); }
      else {
        OthersBeside(w, s, e, io);
        BesideGoesOn(s, Handle(w, s, e, io));
      }
    }
  }

  lemma Same(s: Call)
    ensures Beside(s, s)
  {
  }

  lemma {:induction false} PartingThroughout(w: Words, start: int, inputs: seq<Input>, n: nat)
    requires n <= |inputs|
    ensures Parting(At(w, start, inputs, n))
  {
    hide Handle;
    if n > 0 {
      PartingThroughout(w, start, inputs, n - 1);
      NextAt(w, start, inputs, n - 1);
      StepGoesOn(w, At(w, start, inputs, n - 1), inputs[n - 1].event, inputs[n - 1].io);
    }
  }

  // Over every call whose dialog closed by moment m, as it does when the staff withdraws: from
  // then on no question is asked, at most one goodbye was, and until the call is over the goodbye
  // was asked for or waits. (Only a session confirmed so late would still open.)
  lemma {:induction false} ClosingSaysGoodbye(w: Words, start: int, inputs: seq<Input>, m: nat, n: nat)
    requires m <= n <= |inputs| && At(w, start, inputs, m).talk.closing && At(w, start, inputs, m).flow.configured
    ensures
      var s, t := At(w, start, inputs, m), At(w, start, inputs, n);
      && t.talk.closing && t.flow.configured && OnlyGoodbyes(s, t)
      && Goodbyes(t.sent) <= 1 && (t.over.None? ==> Goodbyes(t.sent) == 1 || Waiting(t) == 1)
      && (t.over.None? && Waiting(t) == 1 && !t.flow.ending ==> t.flow.pending > 0)
  {
    hide At, Handle, Goodbyes, ValidTalk, OnlyGoodbyes;
    PartingThroughout(w, start, inputs, m);
    if m == n {
      NothingSaid(At(w, start, inputs, m));
    } else {
      ClosingSaysGoodbye(w, start, inputs, m, n - 1);
      PartingThroughout(w, start, inputs, n - 1);
      NextAt(w, start, inputs, n - 1);
      StepGoesOn(w, At(w, start, inputs, n - 1), inputs[n - 1].event, inputs[n - 1].io);
      GoodbyesOnly(At(w, start, inputs, m), At(w, start, inputs, n - 1), At(w, start, inputs, n));
    }
  }

  lemma NothingSaid(s: Call)
    ensures OnlyGoodbyes(s, s)
  {
  }

  lemma GoodbyesOnly(a: Call, b: Call, c: Call)
    requires OnlyGoodbyes(a, b) && OnlyGoodbyes(b, c) && b.talk.closing && b.flow.configured
    ensures OnlyGoodbyes(a, c)
  {
    assert c.sent[..|a.sent|] == c.sent[..|b.sent|][..|a.sent|];
    forall i | |a.sent| <= i < |c.sent| && c.sent[i].Create? && a.talk.closing && a.flow.configured
      ensures c.sent[i].prompt.say.Goodbye?
    {
      if i < |b.sent| { assert c.sent[..|b.sent|][i] == b.sent[i]; }
    }
  }

  // ----- Waiting prompts go out -----

  // A prompt waits for the outstanding response to finish.
  ghost predicate Waits(s: Call) { s.over.None? && s.flow.queued.Some? && !s.flow.ending && s.flow.pending > 0 }

  ghost predicate Asked(s: Call, t: Call, prompt: Prompt) {
    |t.sent| > |s.sent| && t.sent[..|s.sent|] == s.sent && t.sent[|t.sent| - 1] == Create(prompt)
  }

  // A waiting prompt waits on until a response counts, and then it is asked; only the turn that
  // the staff takes meanwhile can replace it, and only the end of the call can stop it.
  lemma WaitingStep(w: Words, s: Call, e: Event, io: Io)
    requires Waits(s)
    ensures
      var t := Handle(w, s, e, io);
      || t.over.Some? || t.flow.ending
      || if Counts(s, e, io) then Asked(s, t, s.flow.queued.value)
         else Waits(t) && (t.flow.queued == s.flow.queued || Settles(s, e, io))
  {
    hide Settles, Counts, Handle;
    if Counts(s, e, io) { WaitingCounts(w, s, e, io); }
    else if e.Done? { WaitingUncounted(w, s, e, io); }
    else if e.Updated? || e.SilenceTimer? { WaitingOn(w, s, e, io); }
    else if Settles(s, e, io) { WaitingSettles(w, s, e, io); }
    else { WaitingBeside(w, s, e, io); }
  }

  lemma WaitingBeside(w: Words, s: Call, e: Event, io: Io)
    requires Waits(s) && !e.Updated? && !e.Done? && !e.SilenceTimer? && !Settles(s, e, io)
    ensures var t := Handle(w, s, e, io); t.over.Some? || t.flow.ending || (Waits(t) && t.flow.queued == s.flow.queued)
  {
    hide Handle, Settles;
    OthersBeside(w, s, e, io);
  }

  lemma WaitingCounts(w: Words, s: Call, e: Event, io: Io)
    requires Waits(s) && Counts(s, e, io)
    ensures var t := Handle(w, s, e, io); t.over.Some? || Asked(s, t, s.flow.queued.value)
  {
    hide Handle;
    DoneIsCounted(w, s, e, io);
  }

  lemma WaitingUncounted(w: Words, s: Call, e: Event, io: Io)
    requires Waits(s) && e.Done? && !Counts(s, e, io)
    ensures var t := Handle(w, s, e, io); t.over.Some? || t == s
  {
    hide Handle;
    UncountedEnds(w, s, e, io);
  }

  lemma WaitingOn(w: Words, s: Call, e: Event, io: Io)
    requires Waits(s) && (e.Updated? || e.SilenceTimer?)
    ensures var t := Handle(w, s, e, io); t.over.Some? || (Waits(t) && t.flow.queued == s.flow.queued)
  {
  }

  lemma WaitingSettles(w: Words, s: Call, e: Event, io: Io)
    requires Waits(s) && Settles(s, e, io)
    ensures Waits(Handle(w, s, e, io))
  {
    hide Replied, Join;
    Settled(w, s, e, io);
  }

  // The prompt waits on: the response is not counted yet, and only the staff's turn replaced it.
  ghost predicate WaitsOn(s: Call, t: Call, i: Input) {
    !Counts(s, i.event, i.io) && (t.flow.queued == s.flow.queued || Settles(s, i.event, i.io))
  }

  ghost predicate GoesOut(s: Call, t: Call, i: Input) {
    t.over.Some? || t.flow.ending || (Counts(s, i.event, i.io) && s.flow.queued.Some? && Asked(s, t, s.flow.queued.value))
  }

  // Over every call: a prompt that waits at moment m, and none replaces, is asked of the model
  // when the next response counts, at k, unless the call is over or ends before.
  lemma WaitingPromptsGoOut(w: Words, start: int, inputs: seq<Input>, m: nat) returns (k: nat)
    requires m <= |inputs| && Waits(At(w, start, inputs, m))
    ensures m <= k <= |inputs|
    ensures forall j :: m <= j <= k ==> Waits(At(w, start, inputs, j))
    ensures forall j :: m <= j < k ==> WaitsOn(At(w, start, inputs, j), At(w, start, inputs, j + 1), inputs[j])
    ensures k < |inputs| ==> GoesOut(At(w, start, inputs, k), At(w, start, inputs, k + 1), inputs[k])
  {
    hide At, Handle, Counts, Settles, Asked;
    k := m;
    while k < |inputs| && !Counts(At(w, start, inputs, k), inputs[k].event, inputs[k].io)
                       && At(w, start, inputs, k + 1).over.None? && !At(w, start, inputs, k + 1).flow.ending
      invariant m <= k <= |inputs|
      invariant forall j :: m <= j <= k ==> Waits(At(w, start, inputs, j))
      invariant forall j :: m <= j < k ==> WaitsOn(At(w, start, inputs, j), At(w, start, inputs, j + 1), inputs[j])
    {
      NextAt(w, start, inputs, k);
      WaitingStep(w, At(w, start, inputs, k), inputs[k].event, inputs[k].io);
      k := k + 1;
    }
    if k < |inputs| {
      NextAt(w, start, inputs, k);
      WaitingStep(w, At(w, start, inputs, k), inputs[k].event, inputs[k].io);
    }
  }
}
