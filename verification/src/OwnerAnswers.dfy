// What the owner can count on: each event has its effect on the outside, each committed turn is
// answered, and a call that wraps up says goodbye.
module OwnerAnswers {
  import opened Prelude
  import opened OwnerPricing
  import opened OwnerCall
  import opened OwnerTrace
  import opened OwnerDebts

  // ----- Asking for a reply, or for the goodbye -----

  // One more reply and the goodbye after it might no longer fit, or nine tenths are spent.
  ghost predicate CostsTooMuch(p: Plan, cost: real) {
    cost >= 0.9 * p.cap || cost + Reserve(p.chars, REPLY_TOKENS) + Reserve(p.chars, GOODBYE_TOKENS) > p.cap
  }

  // From s to t the waiting reminders and a request for a reply went out.
  ghost predicate Replied(s: Call, t: Call, io: Io) {
    && |t.sent| == |s.sent| + |s.tools.reminders| + 1 && t.sent[..|s.sent|] == s.sent
    && (forall i :: 0 <= i < |s.tools.reminders| ==> t.sent[|s.sent| + i] == Remind(s.tools.reminders[i]))
    && t.sent[|t.sent| - 1] == Reply
    && t.tools.reminders == [] && t.flow.pending && (t.over.None? <==> io.azure)
  }

  // From s to t the goodbye was asked for, with the hard limit set.
  ghost predicate SaidGoodbye(s: Call, t: Call, io: Io, why: Reason) {
    && t.sent == s.sent + [Goodbye(why, io.now)] && t.flow.goodbyeRequested && t.flow.pending && t.flow.wrap == Some(why)
    && t.timers.hardAt == Some(io.now + WRAP_HARD_MS) && (t.over.None? <==> io.azure)
  }

  // The call starts to wrap up: the goodbye at once, or after the response that is outstanding.
  ghost predicate Wraps(s: Call, t: Call, io: Io, why: Reason) {
    if s.flow.pending then t.sent == s.sent && t.flow.wrap == Some(why) && t.flow.goodbyeAfter && t.flow.pending && t.over == s.over
    else SaidGoodbye(s, t, io, why)
  }

  // A reply is asked for, as far as it may be: not while wrapping up, not beyond the cost, and
  // not beside another response, after which it then comes.
  ghost predicate Asked(p: Plan, s: Call, t: Call, io: Io) {
    if s.flow.wrap.Some? then t.sent == s.sent && t.flow == s.flow && t.over == s.over
    else if CostsTooMuch(p, s.ledger.cost) then Wraps(s, t, io, CostLimit)
    else if s.flow.pending then t.sent == s.sent && t.flow == s.flow.(queued := true) && t.over == s.over && t.tools == s.tools
    else Replied(s, t, io) && t.flow.wrap.None?
  }

  lemma WrapsUp(s: Call, io: Io, why: Reason, otherwise: Reason)
    requires s.flow.wrap.None? && s.over.None?
    ensures Wraps(s, StartGoodbye(s, io, why, otherwise), io, why)
  {
  }

  lemma ReplyGoes(s: Call, io: Io, otherwise: Reason)
    requires s.over.None?
    ensures var t := SendReply(s, io, otherwise); Replied(s, t, io) && t.flow.wrap == s.flow.wrap
  {
  }

  lemma RequestAsks(p: Plan, s: Call, io: Io, otherwise: Reason)
    requires s.over.None?
    ensures Asked(p, s, Request(p, s, io, otherwise), io)
  {
    hide StartGoodbye, SendReply, Wraps, Replied, Reserve;
    if s.flow.wrap.None? { WrapsUp(s, io, CostLimit, otherwise); }
    ReplyGoes(s, io, otherwise);
  }

  // ----- Each event's effect -----

  // The owner's committed turn restarts the idle limit and asks for a reply.
  lemma CommittedTurnIsAnswered(p: Plan, s: Call, io: Io)
    requires s.over.None?
    ensures
      var t := Handle(p, s, Committed, io);
      && Asked(p, s, t, io)
      && (t.over.Some? || t.flow.wrap.Some? || Replied(s, t, io) || (t.flow.pending && t.flow.queued))
      && (!s.timers.userSpeaking ==> t.timers.idleAt == Some(io.now + 120000))
  {
    hide Request, Asked;
    RequestAsks(p, Touch(s, io.now), io, RequestFailed);
    AskedAfterTouch(p, s, Touch(s, io.now), Handle(p, s, Committed, io), io);
    TimersKept(p, Touch(s, io.now), io, RequestFailed);
  }

  lemma AskedAfterTouch(p: Plan, s: Call, u: Call, t: Call, io: Io)
    requires Asked(p, u, t, io) && u == s.(timers := u.timers)
    ensures Asked(p, s, t, io) && (s.over.None? ==> t.over.Some? || t.flow.wrap.Some? || Replied(s, t, io) || (t.flow.pending && t.flow.queued))
  {
    hide Reserve;
  }

  lemma TimersKept(p: Plan, s: Call, io: Io, otherwise: Reason)
    ensures Request(p, s, io, otherwise).timers.idleAt == s.timers.idleAt
  {
    hide StartGoodbye, SendReply, OverCap;
    GoodbyeStays(s, io, CostLimit, otherwise);
    ReplyStays(s, io, otherwise);
  }

  // The first confirmation of the session asks for the opening reply; later ones do nothing.
  lemma SessionOpens(p: Plan, s: Call, io: Io)
    requires s.over.None?
    ensures
      var t := Handle(p, s, Configured, io);
      if s.flow.configured then t == s else t.flow.configured && Asked(p, s.(flow := s.flow.(configured := true)), t, io)
  {
    hide Request, Asked;
    if !s.flow.configured {
      RequestAsks(p, s.(flow := s.flow.(configured := true)), io, RequestFailed);
      StaysConfigured(p, s.(flow := s.flow.(configured := true)), io, RequestFailed);
    }
  }

  lemma GoodbyeStays(s: Call, io: Io, why: Reason, otherwise: Reason)
    ensures
      var t := StartGoodbye(s, io, why, otherwise);
      t.flow.configured == s.flow.configured && t.timers.idleAt == s.timers.idleAt
  {
  }

  lemma ReplyStays(s: Call, io: Io, otherwise: Reason)
    ensures
      var t := SendReply(s, io, otherwise);
      t.flow.configured == s.flow.configured && t.timers.idleAt == s.timers.idleAt
  {
    hide Reminding;
  }

  lemma StaysConfigured(p: Plan, s: Call, io: Io, otherwise: Reason)
    ensures Request(p, s, io, otherwise).flow.configured == s.flow.configured
  {
    hide StartGoodbye, SendReply, OverCap;
    GoodbyeStays(s, io, CostLimit, otherwise);
    ReplyStays(s, io, otherwise);
  }

  // A tool call that runs is answered: its result goes to the model, and a reply is asked for.
  ghost predicate ToolAnswered(p: Plan, s: Call, t: Call, e: Event, io: Io)
    requires e.ToolCall?
  {
    exists u: Call ::
      && u.sent == s.sent + [ToolRun(e.call, e.name, e.response), ToolOutput(e.call)] && u.flow == s.flow && u.over.None?
      && u.tools.reminders == s.tools.reminders && ToolPaid(p, s, u, e, io)
      && if io.azure then Asked(p, u, t, io) else t.over.Some? && t.sent == u.sent
  }

  // A search costs its allocation, which is given back only when it was refused outright.
  ghost predicate ToolPaid(p: Plan, s: Call, u: Call, e: Event, io: Io)
    requires e.ToolCall?
  {
    u.ledger.cost == if Searches(e.name, e.args) && !(io.tool.Answered? && io.tool.refundable) then s.ledger.cost + 0.03 else s.ledger.cost
  }

  lemma ToolCallIsAnswered(p: Plan, s: Call, e: Event, io: Io)
    requires e.ToolCall? && Returns(p, s, e, io)
    ensures ToolAnswered(p, s, Handle(p, s, e, io), e, io)
  {
    hide Request, Asked, SearchFits, Silenced;
    var cost, search := s.ledger.cost, Searches(e.name, e.args);
    var spent := if search then cost + SEARCH_USD else cost;
    var kept := if search && io.tool.refundable then spent - SEARCH_USD else spent;
    var a := s.(tools := s.tools.(run := s.tools.run + {e.call}));
    var b := Send(a, ToolRun(e.call, e.name, e.response));
    var u := Send(b.(ledger := s.ledger.(cost := kept), tools := a.tools.(owed := e.name, owedResponse := "")), ToolOutput(e.call));
    RequestAsks(p, u, io, ToolReplyFailed);
    assert u.sent == s.sent + [ToolRun(e.call, e.name, e.response), ToolOutput(e.call)];
  }

  // A call that does not run: one that was talked over is put down to be reminded of, once; one
  // that ran before is ignored; a search beyond the cost wraps the call up; the rest end it.
  lemma OtherCallsEnd(p: Plan, s: Call, e: Event, io: Io)
    requires s.over.None? && e.ToolCall? && !Returns(p, s, e, io)
    ensures
      var t := Handle(p, s, e, io);
      if s.speech.interrupted || e.response in s.speech.stale then
        t == s.(tools := t.tools) && t.tools.run == s.tools.run && t.tools.owed == s.tools.owed
        && if e.name in p.tools && e.name != "end_call" && e.call != "" && e.call !in s.tools.dropped
           then t.tools.reminders == s.tools.reminders + [Dropped(e.name)] && t.tools.dropped == s.tools.dropped + {e.call}
           else t == s
      else if e.name in p.tools && e.call != "" && e.call in s.tools.run then t == s
      else if e.name in p.tools && e.call != "" && e.name != "end_call" && !e.args.Malformed? then
        if Searches(e.name, e.args) && s.ledger.cost + 0.03 + Reserve(p.chars, REPLY_TOKENS) + Reserve(p.chars, GOODBYE_TOKENS) > p.cap
        then if s.flow.wrap.Some? then t.sent == s.sent && t.over.None? else Wraps(s, t, io, CostLimit)
        else t.over == Some(ToolFailed) && t.sent == s.sent + [ToolRun(e.call, e.name, e.response)]
      else
        && t.sent == s.sent
        && t.over == Some(if e.name !in p.tools || e.call == "" then UnexpectedTool
                          else if e.name == "end_call" && e.args.Object? && e.args.size == 0 then OwnerHangup else InvalidTool)
  {
    hide Reserve, Searches;
  }

  // A response.done that does not count ends the call, except that a repeated one is ignored.
  lemma UncountedEnds(p: Plan, s: Call, e: Event, io: Io)
    requires s.over.None? && e.Done? && !Countable(s, e)
    ensures
      var t := Handle(p, s, e, io);
      if e.id != "" && e.id in s.seen then t == s
      else t.sent == s.sent && t.over == Some(if e.id == "" then MissingResponseId else if e.usage.None? then MissingUsage else InvalidUsage)
  {
    hide Counted, Next, Finished;
  }

  // When what is playing has been played out, with a little time to spare, but within 15 seconds.
  ghost function PlayedOut(b: Playback, now: int): int {
    if b.item == "" then now else Max(now, Min(b.start + b.length + 400, now + 15000))
  }

  // What a counted response leads to: the drain of the goodbye it was, the goodbye that is due,
  // or the reply that waited for it.
  ghost predicate Follows(p: Plan, s: Call, t: Call, id: string, io: Io) {
    var f := s.flow;
    if f.goodbyeRequested && (f.goodbyeId == "" || f.goodbyeId == id) then
      t.sent == s.sent && t.over.None? && t.timers.drainAt == Some(PlayedOut(s.playback, io.now))
    else if f.wrap.None? && CostsTooMuch(p, s.ledger.cost) then Wraps(s, t, io, CostLimit)
    else if f.goodbyeAfter && !f.goodbyeRequested then f.wrap.Some? ==> SaidGoodbye(s, t, io, f.wrap.value)
    else if f.queued then Asked(p, s.(flow := f.(queued := false)), t, io)
    else t == s
  }

  lemma NextFollows(p: Plan, s: Call, io: Io, id: string)
    requires s.over.None?
    ensures Follows(p, s, Next(p, s, io, id), id, io)
  {
    hide Request, StartGoodbye, Asked, Wraps, Reserve;
    if s.flow.wrap.None? { WrapsUp(s, io, CostLimit, CostLimit); }
    RequestAsks(p, s.(flow := s.flow.(queued := false)), io, RequestFailed);
  }

  // A reported share of the tokens, left out when it is larger than them all.
  ghost function Sound(u: Usage, n: Option<nat>): nat { if n == None || n.value > u.input + u.output then 0 else n.value }

  // A response that counts is added up at its price, and leads to what follows it.
  lemma DoneIsCounted(p: Plan, s: Call, e: Event, io: Io)
    requires Countable(s, e)
    ensures
      exists u: Call ::
        && u.sent == s.sent && u.over.None? && u.flow == s.flow.(pending := false) && u.seen == s.seen + {e.id}
        && u.ledger.cost == s.ledger.cost + UsageCost(e.usage.value)
        && u.ledger.input == s.ledger.input + e.usage.value.input && u.ledger.output == s.ledger.output + e.usage.value.output
        && u.ledger.cached == s.ledger.cached + CachedCount(e.usage.value)
        && u.ledger.audioTokens == s.ledger.audioTokens + Sound(e.usage.value, e.usage.value.audio) + Sound(e.usage.value, e.usage.value.audioOut)
        && !u.speech.interrupted && u.playback == s.playback
        && Follows(p, u, Handle(p, s, e, io), e.id, io)
  {
    hide Next, Follows, Settled, UsageCost, CachedCount;
    NextFollows(p, Finished(s, e.id, e.cancelled, Counted(s.ledger, e.usage.value)), io, e.id);
  }

  // ----- Media, transcripts and timers -----

  lemma WritesOut(p: Plan, s: Call, e: Event, io: Io)
    requires s.over.None?
    ensures
      var t := Handle(p, s, e, io);
      && (e.PhoneMedia? ==>
            if !s.flow.configured || !e.inbound then t == s
            else if !e.valid then t.over == Some(InvalidAudio) && t.sent == s.sent
            else t.sent == s.sent + [Microphone] && (t.over.None? <==> io.azure))
      && (e.Audio? ==>
            if s.speech.interrupted || e.response in s.speech.stale then t == s
            else if !e.valid then t.over == Some(InvalidAudio) && t.sent == s.sent
            else
              && t.sent == s.sent + [Play(e.response, e.item, e.ms)] && (t.over.None? <==> io.phone)
              && t.playback.item == e.item
              && (if e.item == s.playback.item then t.playback.start == s.playback.start && t.playback.length == s.playback.length + e.ms
                  else t.playback.start == io.now && t.playback.length == e.ms))
      && (e.Transcript? ==>
            if (e.assistant && (s.speech.interrupted || e.response in s.speech.stale)) || (e.assistant, e.item) in s.posted then t == s
            else t.sent == s.sent + [Posted(s.turns + 1, (e.assistant, e.item))] && t.turns == s.turns + 1 && (t.over.None? <==> io.sink))
      && (e.Failure? ==> if e.invalidRequest && 1 <= e.event <= s.speech.cancels then t == s else t.over == Some(AzureError))
  {
  }

  // A response that is announced is the active one; it is disowned when the owner is talking
  // over, it is the goodbye when that was asked for, and otherwise it is to speak the result owed.
  lemma AnnouncedIsTracked(p: Plan, s: Call, id: string, io: Io)
    requires s.over.None?
    ensures
      var t := Handle(p, s, Created(id), io);
      && t.over.None? && t.sent == s.sent && t.speech.active == id
      && t.speech.stale == (if s.speech.interrupted && id != "" then s.speech.stale + {id} else s.speech.stale)
      && t.flow.goodbyeId == (if s.flow.goodbyeRequested && s.flow.goodbyeId == "" then id else s.flow.goodbyeId)
      && t.tools.owedResponse
         == (if s.tools.owed != "" && s.tools.owedResponse == "" && !s.speech.interrupted then id else s.tools.owedResponse)
  {
  }

  // Over the outstanding response, speech cancels it; over playback, it clears it and tells the
  // model how much of it can have been heard. During the goodbye it does neither.
  lemma SpeechBreaksIn(p: Plan, s: Call, io: Io)
    requires s.over.None?
    ensures
      var t := Handle(p, s, SpeechStarted, io);
      var cancel: seq<Sent> := if s.flow.pending && !s.speech.interrupted then [Cancel(s.speech.cancels + 1)] else [];
      && t.timers.userSpeaking && t.timers.idleAt.None?
      && if s.flow.wrap.Some? then t.sent == s.sent && t.speech == s.speech && t.over.None?
         else
           && (cancel != [] ==> t.speech.interrupted && (s.speech.active != "" ==> s.speech.active in t.speech.stale))
           && (if cancel != [] && !io.azure then t.sent == s.sent + cancel && t.over.Some?
               else if !io.phone || s.playback.item == "" then t.sent == s.sent + cancel + [ClearPlayback] && (t.over.None? <==> io.phone)
               else
                 exists heard: int :: CanHaveHeard(s.playback, io.now, heard)
                   && t.sent == s.sent + cancel + [ClearPlayback, Truncate(s.playback.item, heard)]
                   && (t.over.None? <==> io.azure) && (t.over.None? ==> t.playback.item == ""))
  {
    var heard := Heard(s.playback, io.now);
    assert CanHaveHeard(s.playback, io.now, heard);
  }

  // The time since the item began, but not more than was sent of it, and never less than nothing.
  ghost predicate CanHaveHeard(b: Playback, now: int, heard: int) {
    && 0 <= heard <= b.length
    && (0 <= now - b.start <= b.length ==> heard == now - b.start) && (now - b.start > b.length ==> heard == b.length)
    && (now < b.start ==> heard == 0)
  }

  lemma TimersEndTheCall(p: Plan, s: Call, e: Event, io: Io)
    requires s.over.None?
    ensures
      var t := Handle(p, s, e, io);
      && (e.Deadline? ==> t.over == Some(if s.flow.wrap.Some? then s.flow.wrap.value else DurationLimit))
      && (e.IdleTimer? ==> t.over == if s.timers.idleAt.Some? && s.timers.idleAt.value <= io.now then Some(IdleLimit) else None)
      && (e.DrainTimer? ==> (t.over.Some? <==> s.timers.drainAt.Some? && s.timers.drainAt.value <= io.now))
      && (e.HardTimer? ==> (t.over.Some? <==> s.timers.hardAt.Some? && s.timers.hardAt.value <= io.now))
      && ((e.DrainTimer? || e.HardTimer?) && t.over.Some? && s.flow.wrap.Some? ==> t.over == s.flow.wrap)
      && (e.CheckTimer? ==> t.over == if io.recorder then None else Some(OwnerStop))
      && (e.WrapTimer? ==> if s.flow.wrap.Some? then t == s else Wraps(s, t, io, DurationLimit))
      && (e.PhoneStop? ==> t.over == Some(RemoteHangup)) && (e.SocketError? ==> t.over == Some(Disconnected))
      && (e.SpeechStopped? ==> !t.timers.userSpeaking && t.timers.idleAt == Some(io.now + 120000) && t.sent == s.sent && t.over.None?)
  {
    hide SendGoodbye, Wraps;
    if e.WrapTimer? && s.flow.wrap.None? { WrapsUp(s, io, DurationLimit, DurationLimit); }
  }

  // ----- Over runs -----

  // A reply waits for the outstanding response to finish.
  ghost predicate Awaiting(s: Call) { s.over.None? && s.flow.wrap.None? && s.flow.pending && s.flow.queued && !s.flow.goodbyeRequested && !s.flow.goodbyeAfter }

  // Until the outstanding response finishes, a waiting reply waits; then it goes out, or the
  // call is over or wraps up.
  lemma AwaitingStep(p: Plan, s: Call, e: Event, io: Io)
    requires Awaiting(s)
    ensures
      var t := Handle(p, s, e, io);
      if Countable(s, e) then Sends(s, t) || t.over.Some? || t.flow.wrap.Some? else Awaiting(t) || t.over.Some? || t.flow.wrap.Some?
  {
    hide OnToolCall, OnDone, OnConfigured, OnCommitted, OnTimer, OnSpeechStarted, Countable, Sends;
    if e.Done? { AwaitingDone(p, s, e, io); }
    else {
      NotCountable(s, e);
      if e.ToolCall? { AwaitingTool(p, s, e, io); }
      else if e.Configured? || e.Committed? { AwaitingAsks(p, s, io); }
      else if e.SpeechStarted? { AwaitingSpeech(s, io); }
      else { AwaitingOthers(p, s, e, io); }
    }
  }

  // A request for a reply went out between s and t.
  ghost predicate Sends(s: Call, t: Call) { |t.sent| > |s.sent| && t.sent[..|s.sent|] == s.sent && t.sent[|t.sent| - 1] == Reply }

  lemma NotCountable(s: Call, e: Event)
    requires !e.Done?
    ensures !Countable(s, e)
  {
  }

  lemma AwaitingDone(p: Plan, s: Call, e: Event, io: Io)
    requires Awaiting(s) && e.Done?
    ensures
      var t := OnDone(p, s, io, e.id, e.cancelled, e.usage);
      if Countable(s, e) then Sends(s, t) || t.over.Some? || t.flow.wrap.Some? else Awaiting(t) || t.over.Some? || t.flow.wrap.Some?
  {
    hide Next, Counted, Follows, Asked;
    if Countable(s, e) {
      var ledger := Counted(s.ledger, e.usage.value);
      var u := Finished(s, e.id, e.cancelled, ledger);
      NextFollows(p, u, io, e.id);
      FollowedBy(p, s, u, Next(p, u, io, e.id), e.id, io);
    }
  }

  lemma FollowedBy(p: Plan, s: Call, u: Call, t: Call, id: string, io: Io)
    requires Awaiting(s) && u.sent == s.sent && u.over.None? && u.flow == s.flow.(pending := false) && Follows(p, u, t, id, io)
    ensures Sends(s, t) || t.over.Some? || t.flow.wrap.Some?
  {
    hide Reserve;
  }

  lemma AwaitingTool(p: Plan, s: Call, e: Event, io: Io)
    requires Awaiting(s) && e.ToolCall?
    ensures var t := OnToolCall(p, s, io, e.response, e.name, e.call, e.args); Awaiting(t) || t.over.Some? || t.flow.wrap.Some?
  {
    hide Request, StartGoodbye, SearchFits, Searches, Silenced;
    var a := s.(tools := s.tools.(run := s.tools.run + {e.call}));
    WrapsOrWaits(a, io, CostLimit, CostLimit);
    var cost, search := s.ledger.cost, Searches(e.name, e.args);
    var spent := if search then cost + SEARCH_USD else cost;
    var kept := if search && io.tool.Answered? && io.tool.refundable then spent - SEARCH_USD else spent;
    var b := Send(a, ToolRun(e.call, e.name, e.response));
    var u := Send(b.(ledger := s.ledger.(cost := kept), tools := a.tools.(owed := e.name, owedResponse := "")), ToolOutput(e.call));
    StillWaits(p, u, io, ToolReplyFailed);
  }

  lemma WrapsOrWaits(s: Call, io: Io, why: Reason, otherwise: Reason)
    requires s.flow.wrap.None?
    ensures StartGoodbye(s, io, why, otherwise).flow.wrap.Some?
  {
  }

  lemma StillWaits(p: Plan, s: Call, io: Io, otherwise: Reason)
    requires Awaiting(s)
    ensures var t := Request(p, s, io, otherwise); Awaiting(t) || t.over.Some? || t.flow.wrap.Some?
  {
    hide OverCap;
  }

  lemma AwaitingAsks(p: Plan, s: Call, io: Io)
    requires Awaiting(s)
    ensures var t := OnConfigured(p, s, io); Awaiting(t) || t.over.Some? || t.flow.wrap.Some?
    ensures var t := OnCommitted(p, s, io); Awaiting(t) || t.over.Some? || t.flow.wrap.Some?
  {
    hide Request;
    StillWaits(p, s.(flow := s.flow.(configured := true)), io, RequestFailed);
    StillWaits(p, Touch(s, io.now), io, RequestFailed);
  }

  lemma AwaitingSpeech(s: Call, io: Io)
    requires Awaiting(s)
    ensures var t := OnSpeechStarted(s, io); Awaiting(t) || t.over.Some?
  {
    hide Heard;
  }

  lemma AwaitingOthers(p: Plan, s: Call, e: Event, io: Io)
    requires Awaiting(s) && !e.Done? && !e.ToolCall? && !e.Configured? && !e.Committed? && !e.SpeechStarted?
    ensures var t := Handle(p, s, e, io); Awaiting(t) || t.over.Some? || t.flow.wrap.Some?
  {
  }

  lemma FlagsAgree(p: Plan, start: int, inputs: seq<Input>)
    ensures var s := Run(p, Begin(start), inputs); s.flow.goodbyeRequested || s.flow.goodbyeAfter ==> s.flow.wrap.Some?
  {
    hide Creates, Goodbyes, OnceEach, TimersOk;
    TraceThroughout(p, start, inputs);
  }

  // The turn committed at moment m is answered at moment k: until then its reply waits for the
  // outstanding response, and the first response that counts is the one at k. Then the reply is
  // asked for, unless the call is over or wraps up.
  ghost predicate AnsweredAt(p: Plan, start: int, inputs: seq<Input>, m: nat, k: nat)
    requires m < |inputs|
  {
    && m <= k <= |inputs|
    && (forall j :: m < j <= k ==> Awaiting(At(p, start, inputs, j)))
    && (forall j :: m < j < k ==> !Countable(At(p, start, inputs, j), inputs[j].event))
    && (k < |inputs| ==>
          var s, t := At(p, start, inputs, k), At(p, start, inputs, k + 1);
          Sends(s, t) || t.over.Some? || t.flow.wrap.Some?)
  }

  ghost predicate AllAnswered(p: Plan, start: int, inputs: seq<Input>) {
    forall m :: 0 <= m < |inputs| && inputs[m].event.Committed? && At(p, start, inputs, m).over.None? ==>
      exists k: nat :: AnsweredAt(p, start, inputs, m, k)
  }

  // Over every run: each turn the owner commits is answered, at once or when the response that
  // is outstanding finishes.
  lemma CommittedTurnsAreAnswered(p: Plan, start: int, inputs: seq<Input>)
    ensures AllAnswered(p, start, inputs)
  {
    hide At, AnsweredAt;
    forall m: nat | m < |inputs| && inputs[m].event.Committed? && At(p, start, inputs, m).over.None?
      ensures exists k: nat :: AnsweredAt(p, start, inputs, m, k)
    {
      var k := WhenAnswered(p, start, inputs, m);
    }
  }

  lemma WhenAnswered(p: Plan, start: int, inputs: seq<Input>, m: nat) returns (k: nat)
    requires m < |inputs| && inputs[m].event.Committed? && At(p, start, inputs, m).over.None?
    ensures AnsweredAt(p, start, inputs, m, k)
  {
    hide At, Handle, Awaiting, Sends, Countable;
    CommittedServes(p, start, inputs, m);
    k := m;
    if Awaiting(At(p, start, inputs, m + 1)) {
      k := m + 1;
      while k < |inputs| && Awaiting(At(p, start, inputs, k)) && !Countable(At(p, start, inputs, k), inputs[k].event)
                         && Awaiting(At(p, start, inputs, k + 1))
        invariant m < k <= |inputs| && Awaiting(At(p, start, inputs, k))
        invariant forall j :: m < j <= k ==> Awaiting(At(p, start, inputs, j))
        invariant forall j :: m < j < k ==> !Countable(At(p, start, inputs, j), inputs[j].event)
      {
        k := k + 1;
      }
      if k < |inputs| {
        NextAt(p, start, inputs, k);
        AwaitingStep(p, At(p, start, inputs, k), inputs[k].event, inputs[k].io);
      }
    }
  }

  lemma CommittedServes(p: Plan, start: int, inputs: seq<Input>, m: nat)
    requires m < |inputs| && inputs[m].event.Committed? && At(p, start, inputs, m).over.None?
    ensures
      var s, t := At(p, start, inputs, m), At(p, start, inputs, m + 1);
      Sends(s, t) || t.over.Some? || t.flow.wrap.Some? || Awaiting(t)
  {
    hide At, Handle, Asked;
    NextAt(p, start, inputs, m);
    var s, t := At(p, start, inputs, m), At(p, start, inputs, m + 1);
    CommittedTurnIsAnswered(p, s, inputs[m].io);
    FlagsAt(p, start, inputs, m);
    AskedLeads(p, s, t, inputs[m].io);
  }

  lemma FlagsAt(p: Plan, start: int, inputs: seq<Input>, m: nat)
    requires m <= |inputs|
    ensures var s := At(p, start, inputs, m); s.flow.goodbyeRequested || s.flow.goodbyeAfter ==> s.flow.wrap.Some?
  {
    hide Run;
    FlagsAgree(p, start, inputs[..m]);
  }

  lemma AskedLeads(p: Plan, s: Call, t: Call, io: Io)
    requires Asked(p, s, t, io) && s.over.None? && (s.flow.goodbyeRequested || s.flow.goodbyeAfter ==> s.flow.wrap.Some?)
    ensures Sends(s, t) || t.over.Some? || t.flow.wrap.Some? || Awaiting(t)
  {
    hide Reserve;
  }

  // ----- The goodbye -----

  // The call wraps up, and its goodbye waits for the outstanding response to finish.
  ghost predicate Parting(s: Call) { s.over.None? && s.flow.wrap.Some? && !s.flow.goodbyeRequested && s.flow.pending && s.flow.goodbyeAfter }

  // A call that wraps up has said goodbye, or waits to.
  ghost predicate Parts(s: Call) { s.over.None? && s.flow.wrap.Some? && !s.flow.goodbyeRequested ==> Parting(s) }

  lemma WrapsParts(s: Call, io: Io, why: Reason, otherwise: Reason)
    requires Parts(s)
    ensures Parts(StartGoodbye(s, io, why, otherwise))
  {
  }

  lemma RequestParts(p: Plan, s: Call, io: Io, otherwise: Reason)
    requires Parts(s)
    ensures Parts(Request(p, s, io, otherwise))
  {
    hide StartGoodbye, OverCap;
    WrapsParts(s, io, CostLimit, otherwise);
  }

  lemma DoneParts(p: Plan, s: Call, e: Event, io: Io)
    requires Parts(s) && s.over.None? && e.Done?
    ensures Parts(OnDone(p, s, io, e.id, e.cancelled, e.usage))
  {
    hide Request, StartGoodbye, OverCap, DrainMs, Counted;
    if Countable(s, e) {
      var u := Finished(s, e.id, e.cancelled, Counted(s.ledger, e.usage.value));
      if u.flow.wrap.None? || u.flow.goodbyeRequested {
        WrapsParts(u, io, CostLimit, CostLimit);
        RequestParts(p, u.(flow := u.flow.(queued := false)), io, RequestFailed);
      }
    }
  }

  lemma ToolParts(p: Plan, s: Call, e: Event, io: Io)
    requires Parts(s) && s.over.None? && e.ToolCall?
    ensures Parts(OnToolCall(p, s, io, e.response, e.name, e.call, e.args))
  {
    hide Request, StartGoodbye, SearchFits, Searches, Silenced;
    var a := s.(tools := s.tools.(run := s.tools.run + {e.call}));
    WrapsParts(a, io, CostLimit, CostLimit);
    var cost, search := s.ledger.cost, Searches(e.name, e.args);
    var spent := if search then cost + SEARCH_USD else cost;
    var kept := if search && io.tool.Answered? && io.tool.refundable then spent - SEARCH_USD else spent;
    var b := Send(a, ToolRun(e.call, e.name, e.response));
    var u := Send(b.(ledger := s.ledger.(cost := kept), tools := a.tools.(owed := e.name, owedResponse := "")), ToolOutput(e.call));
    RequestParts(p, u, io, ToolReplyFailed);
  }

  lemma OthersPart(p: Plan, s: Call, e: Event, io: Io)
    requires Parts(s) && s.over.None? && !e.Done? && !e.ToolCall?
    ensures Parts(Handle(p, s, e, io))
  {
    hide Request, StartGoodbye, Heard, Silenced;
    RequestParts(p, s.(flow := s.flow.(configured := true)), io, RequestFailed);
    RequestParts(p, Touch(s, io.now), io, RequestFailed);
    WrapsParts(s, io, DurationLimit, DurationLimit);
  }

  lemma {:induction false} PartsThroughout(p: Plan, start: int, inputs: seq<Input>, k: nat)
    requires k <= |inputs|
    ensures Parts(At(p, start, inputs, k))
  {
    hide Handle;
    if k > 0 {
      PartsThroughout(p, start, inputs, k - 1);
      NextAt(p, start, inputs, k - 1);
      PartsStep(p, At(p, start, inputs, k - 1), inputs[k - 1].event, inputs[k - 1].io);
    }
  }

  lemma PartsStep(p: Plan, s: Call, e: Event, io: Io)
    requires Parts(s)
    ensures Parts(Handle(p, s, e, io))
  {
    hide OnDone, OnToolCall, OnConfigured, OnCommitted, OnTimer, OnPhone, OnSpeechStarted, OnAudio, OnTranscript, OnCreated;
    if s.over.None? {
      if e.Done? { DoneParts(p, s, e, io); }
      else if e.ToolCall? { ToolParts(p, s, e, io); }
      else { OthersPart(p, s, e, io); }
    }
  }

  // While its goodbye waits, the call goes on waiting until the outstanding response finishes;
  // then the goodbye is asked for.
  lemma PartingStep(p: Plan, s: Call, e: Event, io: Io)
    requires Parting(s)
    ensures
      var t := Handle(p, s, e, io);
      t.over.Some? || (if Countable(s, e) then t.flow.goodbyeRequested else Parting(t))
  {
    hide Counted, DrainMs, Heard, Silenced;
    var t := Handle(p, s, e, io);
    if t.over.None? && Countable(s, e) { PartingDone(p, s, e, io); }
  }

  lemma PartingDone(p: Plan, s: Call, e: Event, io: Io)
    requires Parting(s) && Countable(s, e)
    ensures var t := Handle(p, s, e, io); t.over.Some? || t.flow.goodbyeRequested
  {
    hide Counted, OverCap, DrainMs;
  }

  // Over every run: once a call wraps up, its goodbye is asked for at once or at the very next
  // counted response.done, at k, unless the call is over before.
  lemma WrappingUpSaysGoodbye(p: Plan, start: int, inputs: seq<Input>, m: nat) returns (k: nat)
    requires m <= |inputs| && At(p, start, inputs, m).over.None? && At(p, start, inputs, m).flow.wrap.Some?
    ensures m <= k <= |inputs|
    ensures forall j :: m <= j < k ==> Parting(At(p, start, inputs, j)) && !Countable(At(p, start, inputs, j), inputs[j].event)
    ensures
      var s := At(p, start, inputs, k);
      || s.flow.goodbyeRequested || s.over.Some?
      || (Parting(s) && (k < |inputs| ==> Countable(s, inputs[k].event) && (At(p, start, inputs, k + 1).flow.goodbyeRequested
                                                                           || At(p, start, inputs, k + 1).over.Some?)))
  {
    hide At, Handle, Parting, Countable;
    PartsAt(p, start, inputs, m);
    k := m;
    while k < |inputs| && Parting(At(p, start, inputs, k)) && !Countable(At(p, start, inputs, k), inputs[k].event)
      invariant m <= k <= |inputs|
      invariant forall j :: m <= j < k ==> Parting(At(p, start, inputs, j)) && !Countable(At(p, start, inputs, j), inputs[j].event)
      invariant var s := At(p, start, inputs, k); s.flow.goodbyeRequested || s.over.Some? || Parting(s)
    {
      NextAt(p, start, inputs, k);
      PartingStep(p, At(p, start, inputs, k), inputs[k].event, inputs[k].io);
      k := k + 1;
    }
    if k < |inputs| && Parting(At(p, start, inputs, k)) {
      NextAt(p, start, inputs, k);
      PartingStep(p, At(p, start, inputs, k), inputs[k].event, inputs[k].io);
    }
  }

  lemma PartsAt(p: Plan, start: int, inputs: seq<Input>, m: nat)
    requires m <= |inputs| && At(p, start, inputs, m).over.None? && At(p, start, inputs, m).flow.wrap.Some?
    ensures At(p, start, inputs, m).flow.goodbyeRequested || Parting(At(p, start, inputs, m))
  {
    hide At;
    PartsThroughout(p, start, inputs, m);
  }
}
