// What the owner call loop has done to the outside, in every order of events and with
// nothing assumed about the model, the phone or the timers.
module OwnerTrace {
  import opened Prelude
  import opened OwnerPricing
  import opened OwnerCall

  // ----- Reading the trace -----

  function Creates(sent: seq<Sent>): nat {
    if sent == [] then 0 else Creates(sent[..|sent| - 1]) + if sent[|sent| - 1].Reply? || sent[|sent| - 1].Goodbye? then 1 else 0
  }

  function Goodbyes(sent: seq<Sent>): nat {
    if sent == [] then 0 else Goodbyes(sent[..|sent| - 1]) + if sent[|sent| - 1].Goodbye? then 1 else 0
  }

  function Ran(sent: seq<Sent>): seq<string> {
    if sent == [] then []
    else Ran(sent[..|sent| - 1]) + if sent[|sent| - 1].ToolRun? then [sent[|sent| - 1].call] else []
  }

  function Posts(sent: seq<Sent>): seq<Sent> {
    if sent == [] then []
    else Posts(sent[..|sent| - 1]) + if sent[|sent| - 1].Posted? then [sent[|sent| - 1]] else []
  }

  function Reminded(sent: seq<Sent>): seq<Reminder> {
    if sent == [] then []
    else Reminded(sent[..|sent| - 1]) + if sent[|sent| - 1].Remind? then [sent[|sent| - 1].note] else []
  }

  lemma Sending(sent: seq<Sent>, m: Sent)
    ensures Creates(sent + [m]) == Creates(sent) + if m.Reply? || m.Goodbye? then 1 else 0
    ensures Goodbyes(sent + [m]) == Goodbyes(sent) + if m.Goodbye? then 1 else 0
    ensures Ran(sent + [m]) == Ran(sent) + if m.ToolRun? then [m.call] else []
    ensures Posts(sent + [m]) == Posts(sent) + if m.Posted? then [m] else []
    ensures Reminded(sent + [m]) == Reminded(sent) + if m.Remind? then [m.note] else []
  {
    assert (sent + [m])[..|sent|] == sent;
  }

  lemma {:induction false} SendingReminders(sent: seq<Sent>, notes: seq<Reminder>)
    ensures
      var after := sent + Reminding(notes);
      && Creates(after) == Creates(sent) && Goodbyes(after) == Goodbyes(sent)
      && Ran(after) == Ran(sent) && Posts(after) == Posts(sent) && Reminded(after) == Reminded(sent) + notes
  {
    hide Creates, Goodbyes, Ran, Posts, Reminded;
    if notes == [] {
      assert sent + Reminding(notes) == sent;
    } else {
      var fewer, last := notes[..|notes| - 1], notes[|notes| - 1];
      SendingReminders(sent, fewer);
      Sending(sent + Reminding(fewer), Remind(last));
      assert sent + Reminding(notes) == (sent + Reminding(fewer)) + [Remind(last)];
    }
  }

  // ----- The invariant -----

  ghost predicate Counts(s: Call) {
    && Creates(s.sent) <= |s.seen| + (if s.flow.pending then 1 else 0)
    && Goodbyes(s.sent) == (if s.flow.goodbyeRequested then 1 else 0)
    && (s.flow.goodbyeRequested || s.flow.goodbyeAfter ==> s.flow.wrap.Some?)
  }

  ghost predicate OnceEach(s: Call) {
    && NoDuplicates(Ran(s.sent)) && (forall i :: 0 <= i < |Ran(s.sent)| ==> Ran(s.sent)[i] in s.tools.run)
    && |Posts(s.sent)| == s.turns
    && (forall i :: 0 <= i < |Posts(s.sent)| ==> Numbered(Posts(s.sent)[i], i + 1, s.posted))
    && (forall i, j :: 0 <= i < j < |Posts(s.sent)| ==> Posts(s.sent)[i] != Posts(s.sent)[j])
    && (forall i, j :: 0 <= i < j < |Posts(s.sent)| ==> KeyOf(Posts(s.sent)[i]) != KeyOf(Posts(s.sent)[j]))
  }

  ghost predicate Numbered(m: Sent, turn: nat, posted: set<(bool, string)>) { m.Posted? && m.turn == turn && m.key in posted }

  function KeyOf(m: Sent): (bool, string) { if m.Posted? then m.key else (false, "") }

  ghost predicate TimersOk(s: Call) {
    && (s.timers.userSpeaking ==> s.timers.idleAt.None?)
    && (s.timers.hardAt.Some? <==> s.flow.goodbyeRequested)
    && (s.speech.interrupted && s.speech.active != "" ==> s.speech.active in s.speech.stale)
  }

  ghost predicate TraceOk(s: Call) { Counts(s) && OnceEach(s) && TimersOk(s) }

  // Nothing but what m itself is has changed.
  lemma SendKeeps(s: Call, m: Sent)
    requires TraceOk(s) && !m.Reply? && !m.Goodbye? && !m.ToolRun? && !m.Posted?
    ensures TraceOk(Send(s, m))
  {
    Sending(s.sent, m);
  }

  lemma SendGoodbyeKeeps(s: Call, io: Io, otherwise: Reason)
    requires TraceOk(s) && s.flow.wrap.Some? && !s.flow.pending && !s.flow.goodbyeRequested
    ensures TraceOk(SendGoodbye(s, io, otherwise))
  {
    Sending(s.sent, Goodbye(WrapReason(s.flow), io.now));
  }

  lemma StartGoodbyeKeeps(s: Call, io: Io, why: Reason, otherwise: Reason)
    requires TraceOk(s)
    ensures TraceOk(StartGoodbye(s, io, why, otherwise))
  {
    hide SendGoodbye;
    if s.flow.wrap.None? && !s.flow.pending {
      SendGoodbyeKeeps(s.(flow := s.flow.(wrap := Some(why), queued := false)), io, otherwise);
    }
  }

  lemma OnceEachStays(s: Call, t: Call)
    requires OnceEach(s) && Ran(t.sent) == Ran(s.sent) && Posts(t.sent) == Posts(s.sent)
    requires t.tools.run == s.tools.run && t.turns == s.turns && t.posted == s.posted
    ensures OnceEach(t)
  {
    hide Ran, Posts;
  }

  lemma ReplyCounted(s: Call, t: Call)
    requires Counts(s) && !s.flow.pending && t.flow == s.flow.(pending := true) && t.seen == s.seen
    requires Creates(t.sent) == Creates(s.sent) + 1 && Goodbyes(t.sent) == Goodbyes(s.sent)
    ensures Counts(t)
  {
    hide Creates, Goodbyes;
  }

  lemma TimersStay(s: Call, t: Call)
    requires TimersOk(s) && t.timers == s.timers && t.speech == s.speech && t.flow.goodbyeRequested == s.flow.goodbyeRequested
    ensures TimersOk(t)
  {
  }

  lemma ReplySent(s: Call, t: Call)
    requires t.sent == s.sent + Reminding(s.tools.reminders) + [Reply]
    ensures Creates(t.sent) == Creates(s.sent) + 1 && Goodbyes(t.sent) == Goodbyes(s.sent)
    ensures Ran(t.sent) == Ran(s.sent) && Posts(t.sent) == Posts(s.sent)
  {
    hide Creates, Goodbyes, Ran, Posts, Reminded, Reminding;
    SendingReminders(s.sent, s.tools.reminders);
    Sending(s.sent + Reminding(s.tools.reminders), Reply);
  }

  lemma SendReplyKeeps(s: Call, io: Io, otherwise: Reason)
    requires TraceOk(s) && !s.flow.pending
    ensures TraceOk(SendReply(s, io, otherwise))
  {
    hide Reminding, Counts, OnceEach, TimersOk;
    var t := SendReply(s, io, otherwise);
    ReplySent(s, t);
    OnceEachStays(s, t);
    ReplyCounted(s, t);
    TimersStay(s, t);
  }

  lemma RequestKeeps(p: Plan, s: Call, io: Io, otherwise: Reason)
    requires TraceOk(s)
    ensures TraceOk(Request(p, s, io, otherwise))
  {
    hide StartGoodbye, SendReply, OverCap;
    StartGoodbyeKeeps(s, io, CostLimit, otherwise);
    if !s.flow.pending { SendReplyKeeps(s, io, otherwise); }
  }

  lemma SpeechStartedKeeps(s: Call, io: Io)
    requires TraceOk(s)
    ensures TraceOk(OnSpeechStarted(s, io))
  {
    hide TraceOk, StopPlayback, BargeIn;
    var t := s.(timers := Touched(s.timers.(userSpeaking := true), io.now));
    TouchedKeeps(s, t.timers);
    StopPlaybackKeeps(t, io);
    BargeInKeeps(t);
    EndKeeps(BargeIn(t), AzureWriteFailed);
    StopPlaybackKeeps(BargeIn(t), io);
  }

  lemma TouchedKeeps(s: Call, t: Timers)
    requires TraceOk(s) && t.hardAt == s.timers.hardAt && (t.userSpeaking ==> t.idleAt.None?)
    ensures TraceOk(s.(timers := t))
  {
  }

  lemma EndKeeps(s: Call, why: Reason)
    requires TraceOk(s)
    ensures TraceOk(End(s, why))
  {
  }

  lemma BargeInKeeps(s: Call)
    requires TraceOk(s)
    ensures TraceOk(BargeIn(s))
  {
    Sending(s.sent, Cancel(s.speech.cancels + 1));
  }

  lemma StopPlaybackKeeps(s: Call, io: Io)
    requires TraceOk(s)
    ensures TraceOk(StopPlayback(s, io))
  {
    SendKeeps(s, ClearPlayback);
    SendKeeps(Send(s, ClearPlayback), Truncate(s.playback.item, Heard(s.playback, io.now)));
  }

  lemma TranscriptKeeps(s: Call, io: Io, assistant: bool, response: string, item: string)
    requires TraceOk(s)
    ensures TraceOk(OnTranscript(s, io, assistant, response, item))
  {
    hide Creates, Goodbyes, Ran, Posts, Reminded;
    Sending(s.sent, Posted(s.turns + 1, (assistant, item)));
  }

  lemma ToolRunKeeps(s: Call, call: string, name: string, response: string)
    requires TraceOk(s) && call !in Ran(s.sent) && call in s.tools.run
    ensures TraceOk(Send(s, ToolRun(call, name, response)))
  {
    Sending(s.sent, ToolRun(call, name, response));
  }

  lemma SettlingKeeps(s: Call, ledger: Ledger, tools: Tools)
    requires TraceOk(s) && tools.run == s.tools.run
    ensures TraceOk(s.(ledger := ledger)) && TraceOk(s.(ledger := ledger, tools := tools))
  {
  }

  lemma RunToolKeeps(p: Plan, s: Call, io: Io, response: string, name: string, call: string, search: bool)
    requires TraceOk(s) && call !in Ran(s.sent) && call in s.tools.run
    ensures TraceOk(RunTool(p, s, io, response, name, call, search))
  {
    hide TraceOk, Request;
    var t, cost := Send(s, ToolRun(call, name, response)), s.ledger.cost;
    ToolRunKeeps(s, call, name, response);
    var spent := if search then cost + SEARCH_USD else cost;
    var kept := if search && io.tool.Answered? && io.tool.refundable then spent - SEARCH_USD else spent;
    SettlingKeeps(t, s.ledger.(cost := spent), s.tools);
    EndKeeps(t.(ledger := s.ledger.(cost := spent)), ToolFailed);
    SettlingKeeps(t, s.ledger.(cost := kept), s.tools.(owed := name, owedResponse := ""));
    var u := t.(ledger := s.ledger.(cost := kept), tools := s.tools.(owed := name, owedResponse := ""));
    SendKeeps(u, ToolOutput(call));
    EndKeeps(Send(u, ToolOutput(call)), ToolReplyFailed);
    RequestKeeps(p, Send(u, ToolOutput(call)), io, ToolReplyFailed);
  }

  lemma ToolCallKeeps(p: Plan, s: Call, io: Io, response: string, name: string, call: string, args: Arguments)
    requires TraceOk(s)
    ensures TraceOk(OnToolCall(p, s, io, response, name, call, args))
  {
    hide TraceOk, RunTool, StartGoodbye, SearchFits;
    DropKeeps(p, s, name, call);
    EndingKeeps(s);
    if call !in s.tools.run {
      var t := s.(tools := s.tools.(run := s.tools.run + {call}));
      NewCall(s, call);
      EndingKeeps(t);
      StartGoodbyeKeeps(t, io, CostLimit, CostLimit);
      RunToolKeeps(p, t, io, response, name, call, Searches(name, args));
    }
  }

  lemma DropKeeps(p: Plan, s: Call, name: string, call: string)
    requires TraceOk(s)
    ensures TraceOk(DropCall(p, s, name, call))
  {
    hide Creates, Goodbyes, Ran, Posts;
  }

  lemma NewCall(s: Call, call: string)
    requires TraceOk(s) && call !in s.tools.run
    ensures TraceOk(s.(tools := s.tools.(run := s.tools.run + {call}))) && call !in Ran(s.sent)
  {
    hide Creates, Goodbyes, Ran, Posts;
  }

  lemma DoneKeeps(p: Plan, s: Call, io: Io, id: string, cancelled: bool, usage: Option<Usage>)
    requires TraceOk(s)
    ensures TraceOk(OnDone(p, s, io, id, cancelled, usage))
  {
    hide TraceOk, Next, Counted, Finished;
    EndingKeeps(s);
    if id !in s.seen {
      SeenKeeps(s, id);
      EndingKeeps(s.(seen := s.seen + {id}));
      if usage.Some? {
        var ledger := Counted(s.ledger, usage.value);
        SettlingKeeps(s.(seen := s.seen + {id}), ledger, s.tools);
        EndingKeeps(s.(seen := s.seen + {id}, ledger := ledger));
        FinishedKeeps(s, id, cancelled, ledger);
        NextKeeps(p, Finished(s, id, cancelled, ledger), io, id);
      }
    }
  }

  lemma SeenKeeps(s: Call, id: string)
    requires TraceOk(s) && id !in s.seen
    ensures TraceOk(s.(seen := s.seen + {id}))
  {
    hide Creates, Goodbyes, Ran, Posts;
  }

  lemma FinishedKeeps(s: Call, id: string, cancelled: bool, ledger: Ledger)
    requires TraceOk(s) && id !in s.seen
    ensures TraceOk(Finished(s, id, cancelled, ledger)) && !Finished(s, id, cancelled, ledger).flow.pending
  {
    hide Creates, Goodbyes, Ran, Posts;
  }

  lemma NextKeeps(p: Plan, s: Call, io: Io, id: string)
    requires TraceOk(s) && !s.flow.pending
    ensures TraceOk(Next(p, s, io, id))
  {
    hide Request, StartGoodbye, SendGoodbye, OverCap, DrainMs;
    StartGoodbyeKeeps(s, io, CostLimit, CostLimit);
    RequestKeeps(p, s.(flow := s.flow.(queued := false)), io, RequestFailed);
    if s.flow.goodbyeAfter && !s.flow.goodbyeRequested && s.flow.wrap.Some? { SendGoodbyeKeeps(s, io, WrapReason(s.flow)); }
  }

  lemma TraceStep(p: Plan, s: Call, e: Event, io: Io)
    requires TraceOk(s)
    ensures TraceOk(Handle(p, s, e, io))
  {
    hide TraceOk, OnToolCall, OnDone, Request, StartGoodbye, OnTranscript, OnSpeechStarted, OnAudio, OnCreated, OnTimer, OnPhone,
         OnConfigured, OnCommitted, OnSpeechStopped;
    if s.over.None? {
      match e
      case Done(id, cancelled, usage) => DoneKeeps(p, s, io, id, cancelled, usage);
      case ToolCall(response, name, call, args) => ToolCallKeeps(p, s, io, response, name, call, args);
      case Configured => AskingKeeps(p, s, io);
      case Committed => AskingKeeps(p, s, io);
      case Transcript(assistant, response, item) => TranscriptKeeps(s, io, assistant, response, item);
      case SpeechStarted => SpeechStartedKeeps(s, io);
      case SpeechStopped => AskingKeeps(p, s, io);
      case Audio(response, item, valid, ms) => AudioKeeps(s, io, response, item, valid, ms);
      case Created(id) => CreatedKeeps(s, id);
      case Failure(_, _) => EndKeeps(s, AzureError);
      case _ => OutsideKeeps(s, io, e);
    }
  }

  lemma AskingKeeps(p: Plan, s: Call, io: Io)
    requires TraceOk(s)
    ensures TraceOk(OnConfigured(p, s, io)) && TraceOk(OnCommitted(p, s, io)) && TraceOk(OnSpeechStopped(s, io))
  {
    hide Request;
    RequestKeeps(p, s.(flow := s.flow.(configured := true)), io, RequestFailed);
    RequestKeeps(p, Touch(s, io.now), io, RequestFailed);
  }

  lemma OutsideKeeps(s: Call, io: Io, e: Event)
    requires TraceOk(s)
    ensures TraceOk(OnTimer(s, io, e)) && TraceOk(OnPhone(s, io, e))
  {
    hide TraceOk, StartGoodbye;
    StartGoodbyeKeeps(s, io, DurationLimit, DurationLimit);
    SendKeeps(s, Microphone);
    EndingKeeps(s);
    EndingKeeps(Send(s, Microphone));
  }

  lemma EndingKeeps(s: Call)
    requires TraceOk(s)
    ensures forall why :: TraceOk(End(s, why))
  {
    hide Creates, Goodbyes, Ran, Posts;
  }

  lemma AudioKeeps(s: Call, io: Io, response: string, item: string, valid: bool, ms: nat)
    requires TraceOk(s)
    ensures TraceOk(OnAudio(s, io, response, item, valid, ms))
  {
    Sending(s.sent, Play(response, item, ms));
  }

  lemma CreatedKeeps(s: Call, id: string)
    requires TraceOk(s)
    ensures TraceOk(OnCreated(s, id))
  {
  }

  lemma {:induction false} TraceThroughout(p: Plan, start: int, inputs: seq<Input>)
    ensures TraceOk(Run(p, Begin(start), inputs))
  {
    hide TraceOk, Handle;
    if inputs == [] {
      BeginOk(start);
    } else {
      var last := inputs[|inputs| - 1];
      TraceThroughout(p, start, inputs[..|inputs| - 1]);
      TraceStep(p, Run(p, Begin(start), inputs[..|inputs| - 1]), last.event, last.io);
    }
  }

  lemma BeginOk(start: int)
    ensures TraceOk(Begin(start))
  {
  }

  // ----- What may still happen from a state on -----

  // m may be done by a call that is in state s, or was earlier.
  ghost predicate Allowed(s: Call, m: Sent) {
    && (s.flow.wrap.Some? && m.Goodbye? ==> !s.flow.goodbyeRequested && m.why == s.flow.wrap.value)
    && (s.flow.wrap.Some? ==> !m.Reply? && !m.Cancel? && !m.ClearPlayback? && !m.Truncate? && !m.Remind?)
    && (s.flow.goodbyeRequested ==> !m.Goodbye?)
    && (m.Play? || m.ToolRun? ==> m.response !in s.speech.stale)
    && (m.ToolRun? ==> m.call !in s.tools.run)
  }

  ghost predicate Quiet(m: Sent) { !m.Play? && !m.ToolRun? }

  // Every reminder raised so far, sent or still to be sent.
  function Raised(s: Call): seq<Reminder> { Reminded(s.sent) + s.tools.reminders }

  // A goodbye was asked for exactly the wrap limit before the hard timer runs out.
  ghost predicate Bounded(t: Call, m: Sent) {
    m.Goodbye? ==> t.flow.goodbyeRequested && t.timers.hardAt == Some(m.at + WRAP_HARD_MS)
  }

  ghost predicate Later(s: Call, t: Call) {
    && s.sent <= t.sent
    && (forall i :: |s.sent| <= i < |t.sent| ==> Allowed(s, t.sent[i]))
    && (s.flow.wrap.Some? ==> t.flow.wrap == s.flow.wrap)
    && (s.flow.goodbyeRequested ==> t.flow.goodbyeRequested && t.timers.hardAt == s.timers.hardAt)
    && (forall i :: |s.sent| <= i < |t.sent| ==> Bounded(t, t.sent[i]))
    && s.speech.stale <= t.speech.stale && s.tools.run <= t.tools.run && s.seen <= t.seen
    && Raised(s) <= Raised(t)
    && (s.speech.interrupted && t.seen == s.seen ==>
          t.speech.interrupted && forall i :: |s.sent| <= i < |t.sent| ==> Quiet(t.sent[i]))
  }

  lemma LaterTwice(a: Call, b: Call, c: Call)
    requires Later(a, b) && Later(b, c)
    ensures Later(a, c)
  {
    forall i | |a.sent| <= i < |c.sent|
      ensures Allowed(a, c.sent[i]) && Bounded(c, c.sent[i])
      ensures a.speech.interrupted && c.seen == a.seen ==> Quiet(c.sent[i])
    {
      if i < |b.sent| { assert c.sent[i] == b.sent[i] && Bounded(b, b.sent[i]); } else { assert Allowed(b, c.sent[i]); }
    }
  }

  // One more message, and nothing taken back.
  ghost predicate Kept(s: Call, t: Call) {
    && t.sent == s.sent && t.tools.reminders == s.tools.reminders
    && (s.flow.wrap.Some? ==> t.flow.wrap == s.flow.wrap)
    && (s.flow.goodbyeRequested ==> t.flow.goodbyeRequested && t.timers.hardAt == s.timers.hardAt)
    && s.speech.stale <= t.speech.stale && s.tools.run <= t.tools.run && s.seen <= t.seen
    && (s.speech.interrupted && t.seen == s.seen ==> t.speech.interrupted)
  }

  lemma KeptLater(s: Call, t: Call)
    requires Kept(s, t)
    ensures Later(s, t)
  {
  }

  // From s, first message m, then only fields that Kept allows to change.
  lemma SendLater(s: Call, m: Sent, t: Call)
    requires Allowed(s, m) && !m.Remind? && (s.speech.interrupted && t.seen == s.seen ==> Quiet(m))
    requires t.sent == s.sent + [m] && Kept(s, t.(sent := s.sent)) && Bounded(t, m)
    ensures Later(s, t)
  {
    Sending(s.sent, m);
  }

  lemma SendGoodbyeLater(s: Call, io: Io, otherwise: Reason)
    requires s.flow.wrap.Some? && !s.flow.goodbyeRequested
    ensures Later(s, SendGoodbye(s, io, otherwise))
  {
    hide Later;
    SendLater(s, Goodbye(WrapReason(s.flow), io.now), SendGoodbye(s, io, otherwise));
  }

  lemma StartGoodbyeLater(s: Call, io: Io, why: Reason, otherwise: Reason)
    requires Counts(s)
    ensures Later(s, StartGoodbye(s, io, why, otherwise))
  {
    hide Later, SendGoodbye;
    var t := StartGoodbye(s, io, why, otherwise);
    if s.flow.wrap.Some? || s.flow.pending {
      KeptLater(s, t);
    } else {
      var u := s.(flow := s.flow.(wrap := Some(why), queued := false));
      KeptLater(s, u);
      SendGoodbyeLater(u, io, otherwise);
      LaterTwice(s, u, t);
    }
  }

  lemma RepliesAreAllowed(s: Call, m: Sent)
    requires s.flow.wrap.None? && (m.Remind? || m.Reply?)
    ensures Allowed(s, m)
  {
  }

  lemma SendReplyLater(s: Call, io: Io, otherwise: Reason)
    requires s.flow.wrap.None? && Counts(s)
    ensures Later(s, SendReply(s, io, otherwise))
  {
    hide Creates, Goodbyes, Ran, Posts, Reminded, Allowed;
    var t := SendReply(s, io, otherwise);
    SendingReminders(s.sent, s.tools.reminders);
    Sending(s.sent + Reminding(s.tools.reminders), Reply);
    forall i | |s.sent| <= i < |t.sent|
      ensures Allowed(s, t.sent[i]) && Quiet(t.sent[i]) && !t.sent[i].Goodbye?
    {
      assert t.sent[i].Remind? || t.sent[i].Reply?;
      RepliesAreAllowed(s, t.sent[i]);
    }
  }

  lemma RequestLater(p: Plan, s: Call, io: Io, otherwise: Reason)
    requires Counts(s)
    ensures Later(s, Request(p, s, io, otherwise))
  {
    hide Later, StartGoodbye, SendReply, OverCap;
    var t := Request(p, s, io, otherwise);
    if s.flow.wrap.Some? || (s.flow.pending && !OverCap(p, s.ledger.cost)) { KeptLater(s, t); }
    else if OverCap(p, s.ledger.cost) { StartGoodbyeLater(s, io, CostLimit, otherwise); }
    else { SendReplyLater(s, io, otherwise); }
  }

  // Handlers that first change fields Kept allows and then go on.
  lemma ThenRequest(p: Plan, s: Call, t: Call, io: Io, otherwise: Reason)
    requires Kept(s, t) && Counts(t)
    ensures Later(s, Request(p, t, io, otherwise))
  {
    hide Later;
    KeptLater(s, t);
    RequestLater(p, t, io, otherwise);
    LaterTwice(s, t, Request(p, t, io, otherwise));
  }

  lemma BargeInLater(s: Call)
    requires s.flow.wrap.None?
    ensures Later(s, BargeIn(s)) && BargeIn(s).flow == s.flow
  {
    SendLater(s, Cancel(s.speech.cancels + 1), BargeIn(s));
  }

  lemma StopPlaybackLater(s: Call, io: Io)
    requires s.flow.wrap.None?
    ensures Later(s, StopPlayback(s, io))
  {
    hide Later;
    var t, cut := Send(s, ClearPlayback), Truncate(s.playback.item, Heard(s.playback, io.now));
    var u := StopPlayback(s, io);
    if !io.phone || s.playback.item == "" {
      SendLater(s, ClearPlayback, u);
    } else {
      SendLater(s, ClearPlayback, t);
      SendLater(t, cut, u);
      LaterTwice(s, t, u);
    }
  }

  lemma SpeechStartedLater(s: Call, io: Io)
    ensures Later(s, OnSpeechStarted(s, io))
  {
    hide Later, BargeIn, StopPlayback;
    var t := s.(timers := Touched(s.timers.(userSpeaking := true), io.now));
    KeptLater(s, t);
    if s.flow.wrap.None? {
      if !s.flow.pending || s.speech.interrupted {
        StopPlaybackLater(t, io);
        LaterTwice(s, t, StopPlayback(t, io));
      } else {
        BargeInLater(t);
        LaterTwice(s, t, BargeIn(t));
        AfterBargeIn(s, BargeIn(t), io);
      }
    }
  }

  lemma AfterBargeIn(s: Call, b: Call, io: Io)
    requires Later(s, b) && b.flow.wrap.None?
    ensures Later(s, End(b, AzureWriteFailed)) && Later(s, StopPlayback(b, io))
  {
    hide Later;
    KeptLater(b, End(b, AzureWriteFailed));
    LaterTwice(s, b, End(b, AzureWriteFailed));
    StopPlaybackLater(b, io);
    LaterTwice(s, b, StopPlayback(b, io));
  }

  lemma AudioLater(s: Call, io: Io, response: string, item: string, valid: bool, ms: nat)
    ensures Later(s, OnAudio(s, io, response, item, valid, ms))
  {
    hide Later;
    var t := OnAudio(s, io, response, item, valid, ms);
    if Silenced(s.speech, response) || !valid { KeptLater(s, t); } else { SendLater(s, Play(response, item, ms), t); }
  }

  lemma TranscriptLater(s: Call, io: Io, assistant: bool, response: string, item: string)
    ensures Later(s, OnTranscript(s, io, assistant, response, item))
  {
    hide Later;
    var t := OnTranscript(s, io, assistant, response, item);
    if t == s { KeptLater(s, t); } else { SendLater(s, Posted(s.turns + 1, (assistant, item)), t); }
  }

  lemma ReminderLater(s: Call, t: Call, note: Reminder)
    requires t.tools.reminders == s.tools.reminders + [note] && Kept(s, t.(tools := t.tools.(reminders := s.tools.reminders)))
    ensures Later(s, t)
  {
  }

  lemma RunToolLater(p: Plan, s: Call, io: Io, response: string, name: string, call: string, search: bool)
    requires Counts(s) && !Silenced(s.speech, response) && call in s.tools.run
    ensures Later(s.(tools := s.tools.(run := s.tools.run - {call})), RunTool(p, s, io, response, name, call, search))
  {
    hide Later, Request;
    var s0 := s.(tools := s.tools.(run := s.tools.run - {call}));
    var cost := s.ledger.cost;
    var spent := if search then cost + SEARCH_USD else cost;
    var kept := if search && io.tool.Answered? && io.tool.refundable then spent - SEARCH_USD else spent;
    var t := Send(s, ToolRun(call, name, response)).(ledger := s.ledger.(cost := if io.tool.Answered? then kept else spent),
                  tools := if io.tool.Answered? then s.tools.(owed := name, owedResponse := "") else s.tools);
    SendLater(s0, ToolRun(call, name, response), t);
    if io.tool.NoAnswer? {
      KeptLater(t, End(t, ToolFailed));
      LaterTwice(s0, t, End(t, ToolFailed));
    } else {
      var u := Send(t, ToolOutput(call));
      SendLater(t, ToolOutput(call), u);
      LaterTwice(s0, t, u);
      CountsSame(s, t, u, ToolRun(call, name, response), ToolOutput(call));
      AfterOutput(p, s0, u, io);
    }
  }

  lemma CountsSame(s: Call, t: Call, u: Call, m: Sent, n: Sent)
    requires Counts(s) && t.sent == s.sent + [m] && u.sent == t.sent + [n]
    requires !m.Reply? && !m.Goodbye? && !n.Reply? && !n.Goodbye?
    requires u.flow == t.flow == s.flow && u.seen == t.seen == s.seen
    ensures Counts(u)
  {
    Sending(s.sent, m);
    Sending(t.sent, n);
  }

  lemma AfterOutput(p: Plan, s: Call, u: Call, io: Io)
    requires Later(s, u) && Counts(u)
    ensures Later(s, if io.azure then Request(p, u, io, ToolReplyFailed) else End(u, ToolReplyFailed))
  {
    hide Later;
    RequestLater(p, u, io, ToolReplyFailed);
    LaterTwice(s, u, Request(p, u, io, ToolReplyFailed));
    KeptLater(u, End(u, ToolReplyFailed));
    LaterTwice(s, u, End(u, ToolReplyFailed));
  }

  lemma ToolCallLater(p: Plan, s: Call, io: Io, response: string, name: string, call: string, args: Arguments)
    requires Counts(s)
    ensures Later(s, OnToolCall(p, s, io, response, name, call, args))
  {
    hide Later, RunTool, StartGoodbye, SearchFits;
    var r := OnToolCall(p, s, io, response, name, call, args);
    if Silenced(s.speech, response) {
      if r == s { KeptLater(s, r); } else { ReminderLater(s, r, Dropped(name)); }
    } else if name !in p.tools || call == "" || call in s.tools.run || args.Malformed? || name == END_CALL {
      KeptLater(s, r);
    } else {
      var t := s.(tools := s.tools.(run := s.tools.run + {call}));
      KeptLater(s, t);
      if Searches(name, args) && !SearchFits(p, s.ledger.cost) {
        StartGoodbyeLater(t, io, CostLimit, CostLimit);
        LaterTwice(s, t, r);
      } else {
        assert t.(tools := t.tools.(run := t.tools.run - {call})) == s;
        RunToolLater(p, t, io, response, name, call, Searches(name, args));
      }
    }
  }

  lemma NextLater(p: Plan, s: Call, io: Io, id: string)
    requires Counts(s) && !s.flow.pending
    ensures Later(s, Next(p, s, io, id))
  {
    hide Later, Request, StartGoodbye, SendGoodbye, OverCap, DrainMs;
    var f := s.flow;
    if f.goodbyeRequested && (f.goodbyeId == "" || f.goodbyeId == id) { KeptLater(s, Next(p, s, io, id)); }
    else if f.wrap.None? && OverCap(p, s.ledger.cost) { StartGoodbyeLater(s, io, CostLimit, CostLimit); }
    else if f.goodbyeAfter && !f.goodbyeRequested { SendGoodbyeLater(s, io, WrapReason(f)); }
    else if f.queued { ThenRequest(p, s, s.(flow := f.(queued := false)), io, RequestFailed); }
    else { KeptLater(s, s); }
  }

  lemma FinishedLater(s: Call, id: string, cancelled: bool, ledger: Ledger)
    requires id !in s.seen
    ensures Later(s, Finished(s, id, cancelled, ledger))
  {
    hide Later;
    var t := Finished(s, id, cancelled, ledger);
    if t.tools.reminders == s.tools.reminders { KeptLater(s, t); } else { ReminderLater(s, t, Unheard(s.tools.owed)); }
  }

  lemma DoneLater(p: Plan, s: Call, io: Io, id: string, cancelled: bool, usage: Option<Usage>)
    requires Counts(s)
    ensures Later(s, OnDone(p, s, io, id, cancelled, usage))
  {
    hide Later, Next, Finished, Counted;
    var t := OnDone(p, s, io, id, cancelled, usage);
    if id == "" || id in s.seen || usage.None? {
      KeptLater(s, t);
    } else {
      var ledger := Counted(s.ledger, usage.value);
      if ledger.audioTokens > ledger.input + ledger.output {
        KeptLater(s, t);
      } else {
        FinishedLater(s, id, cancelled, ledger);
        FinishedCounts(s, id, cancelled, ledger);
        NextLater(p, Finished(s, id, cancelled, ledger), io, id);
        LaterTwice(s, Finished(s, id, cancelled, ledger), t);
      }
    }
  }

  lemma FinishedCounts(s: Call, id: string, cancelled: bool, ledger: Ledger)
    requires Counts(s) && id !in s.seen
    ensures Counts(Finished(s, id, cancelled, ledger)) && !Finished(s, id, cancelled, ledger).flow.pending
  {
  }

  lemma StepLater(p: Plan, s: Call, e: Event, io: Io)
    requires TraceOk(s)
    ensures Later(s, Handle(p, s, e, io))
  {
    hide Later, OnToolCall, OnDone, OnConfigured, OnCommitted, OnTranscript, OnSpeechStarted, OnAudio, OnPhone, OnTimer, OnCreated,
         OnSpeechStopped, Counts, OnceEach, TimersOk;
    if s.over.Some? { KeptLater(s, s); }
    else if e.Done? { DoneLater(p, s, io, e.id, e.cancelled, e.usage); }
    else if e.ToolCall? { ToolCallLater(p, s, io, e.response, e.name, e.call, e.args); }
    else if e.Configured? { ConfiguredLater(p, s, io); }
    else if e.Committed? { CommittedLater(p, s, io); }
    else if e.Transcript? { TranscriptLater(s, io, e.assistant, e.response, e.item); }
    else if e.SpeechStarted? { SpeechStartedLater(s, io); }
    else if e.Audio? { AudioLater(s, io, e.response, e.item, e.valid, e.ms); }
    else if e.Created? || e.SpeechStopped? || e.Failure? { SilentLater(s, io, e); }
    else { OutsideLater(s, io, e); }
  }

  lemma ConfiguredLater(p: Plan, s: Call, io: Io)
    requires Counts(s)
    ensures Later(s, OnConfigured(p, s, io))
  {
    hide Later, Request;
    if s.flow.configured { KeptLater(s, s); } else { ThenRequest(p, s, s.(flow := s.flow.(configured := true)), io, RequestFailed); }
  }

  lemma CommittedLater(p: Plan, s: Call, io: Io)
    requires Counts(s)
    ensures Later(s, OnCommitted(p, s, io))
  {
    hide Later, Request;
    ThenRequest(p, s, Touch(s, io.now), io, RequestFailed);
  }

  lemma SilentLater(s: Call, io: Io, e: Event)
    ensures e.Created? ==> Later(s, OnCreated(s, e.id))
    ensures e.SpeechStopped? ==> Later(s, OnSpeechStopped(s, io))
    ensures e.Failure? ==> Later(s, OnFailure(s, e.invalidRequest, e.event))
  {
    hide Later;
    if e.Created? { KeptLater(s, OnCreated(s, e.id)); }
    if e.SpeechStopped? { KeptLater(s, OnSpeechStopped(s, io)); }
    if e.Failure? { KeptLater(s, OnFailure(s, e.invalidRequest, e.event)); }
  }

  lemma OutsideLater(s: Call, io: Io, e: Event)
    requires Counts(s)
    ensures Later(s, OnPhone(s, io, e)) && Later(s, OnTimer(s, io, e))
  {
    hide Later, StartGoodbye;
    var t, u := OnPhone(s, io, e), OnTimer(s, io, e);
    if t.sent == s.sent { KeptLater(s, t); } else { SendLater(s, Microphone, t); }
    if e.WrapTimer? { StartGoodbyeLater(s, io, DurationLimit, DurationLimit); } else { KeptLater(s, u); }
  }

  lemma {:induction false} RunSplits(p: Plan, s: Call, a: seq<Input>, b: seq<Input>)
    ensures Run(p, s, a + b) == Run(p, Run(p, s, a), b)
  {
    if b == [] {
      assert a + b == a;
    } else {
      RunSplits(p, s, a, b[..|b| - 1]);
      assert (a + b)[..|a + b| - 1] == a + b[..|b| - 1];
    }
  }

  lemma {:induction false} RunLater(p: Plan, start: int, past: seq<Input>, future: seq<Input>)
    ensures Later(Run(p, Begin(start), past), Run(p, Begin(start), past + future))
  {
    hide Later, Handle, TraceOk;
    if future == [] {
      assert past + future == past;
      KeptLater(Run(p, Begin(start), past), Run(p, Begin(start), past));
    } else {
      var fewer, last := future[..|future| - 1], future[|future| - 1];
      RunLater(p, start, past, fewer);
      assert (past + future)[..|past + future| - 1] == past + fewer;
      TraceThroughout(p, start, past + fewer);
      StepLater(p, Run(p, Begin(start), past + fewer), last.event, last.io);
      LaterTwice(Run(p, Begin(start), past), Run(p, Begin(start), past + fewer), Run(p, Begin(start), past + future));
    }
  }

  // ----- Main results -----

  // At most one response is ever outstanding: what was asked for is never more than what
  // has finished, plus the one pending. At most one goodbye is asked for. Each tool call id
  // runs at most once; transcript turns are posted once each and numbered in order.
  lemma OneAtATime(p: Plan, start: int, inputs: seq<Input>)
    ensures
      var s := Run(p, Begin(start), inputs);
      && Creates(s.sent) <= |s.seen| + (if s.flow.pending then 1 else 0)
      && Goodbyes(s.sent) == (if s.flow.goodbyeRequested then 1 else 0)
      && NoDuplicates(Ran(s.sent))
      && |Posts(s.sent)| == s.turns
      && (forall i :: 0 <= i < |Posts(s.sent)| ==> Posts(s.sent)[i].Posted? && Posts(s.sent)[i].turn == i + 1)
      && (forall i, j :: 0 <= i < j < |Posts(s.sent)| ==> KeyOf(Posts(s.sent)[i]) != KeyOf(Posts(s.sent)[j]))
  {
    TraceThroughout(p, start, inputs);
  }

  // Once the call is wrapping up, the only response still to be asked for is its one
  // goodbye, and nothing the owner says cancels, clears or cuts it off.
  lemma WrapUpIsFinal(p: Plan, start: int, past: seq<Input>, future: seq<Input>, i: nat)
    requires
      var s := Run(p, Begin(start), past);
      s.flow.wrap.Some? && |s.sent| <= i < |Run(p, Begin(start), past + future).sent|
    ensures
      var s, t := Run(p, Begin(start), past), Run(p, Begin(start), past + future);
      var m := t.sent[i];
      && t.flow.wrap == s.flow.wrap
      && !m.Reply? && !m.Cancel? && !m.ClearPlayback? && !m.Truncate?
      && (m.Goodbye? ==> !s.flow.goodbyeRequested && m.why == s.flow.wrap.value)
  {
    RunLater(p, start, past, future);
    assert Allowed(Run(p, Begin(start), past), Run(p, Begin(start), past + future).sent[i]);
  }

  // Once the owner has talked over a response, nothing it sends is played or run, ever;
  // and until some response finishes, nothing at all is.
  lemma InterruptedResponsesAreSilent(p: Plan, start: int, past: seq<Input>, future: seq<Input>, i: nat)
    requires
      var s := Run(p, Begin(start), past);
      |s.sent| <= i < |Run(p, Begin(start), past + future).sent|
    ensures
      var s, t := Run(p, Begin(start), past), Run(p, Begin(start), past + future);
      var m := t.sent[i];
      && (m.Play? || m.ToolRun? ==> m.response !in s.speech.stale)
      && (s.speech.interrupted && t.seen == s.seen ==>
            !m.Play? && !m.ToolRun? && (t.speech.active != "" ==> t.speech.active in t.speech.stale))
  {
    RunLater(p, start, past, future);
    TraceThroughout(p, start, past + future);
    assert Allowed(Run(p, Begin(start), past), Run(p, Begin(start), past + future).sent[i]);
  }

  // A reminder, once raised, is neither lost, repeated nor overtaken: it is sent, or waits.
  lemma RemindersAreKept(p: Plan, start: int, past: seq<Input>, future: seq<Input>)
    ensures Raised(Run(p, Begin(start), past)) <= Raised(Run(p, Begin(start), past + future))
  {
    RunLater(p, start, past, future);
  }

  lemma {:induction false} GoodbyeIsSent(sent: seq<Sent>) returns (i: nat)
    requires Goodbyes(sent) > 0
    ensures i < |sent| && sent[i].Goodbye?
  {
    if sent[|sent| - 1].Goodbye? { i := |sent| - 1; } else { i := GoodbyeIsSent(sent[..|sent| - 1]); }
  }

  // When m was asked for, the hard timer was set to end the call the wrap limit later.
  ghost predicate EndsBy(p: Plan, s: Call, io: Io, m: Sent) {
    && m.Goodbye? && s.timers.hardAt == Some(m.at + WRAP_HARD_MS)
    && (io.now >= m.at + WRAP_HARD_MS ==> Handle(p, s, HardTimer, io).over.Some?)
  }

  // The goodbye itself is bounded: the hard timer stands exactly the wrap limit after it was
  // asked for, and ends the call. And the idle timer never runs while the owner speaks.
  lemma TheCallEnds(p: Plan, start: int, inputs: seq<Input>, io: Io)
    ensures
      var s := Run(p, Begin(start), inputs);
      && (s.flow.goodbyeRequested ==> exists i :: 0 <= i < |s.sent| && EndsBy(p, s, io, s.sent[i]))
      && (s.timers.userSpeaking && s.over.None? ==> Handle(p, s, IdleTimer, io).over.None?)
  {
    hide Run, Handle, Counts, OnceEach, EndsBy, Goodbyes;
    TraceThroughout(p, start, inputs);
    var s := Run(p, Begin(start), inputs);
    IdleWaits(p, s, io);
    if s.flow.goodbyeRequested {
      var i := GoodbyeBounded(p, start, inputs);
      HardEnds(p, s, io, s.sent[i]);
    }
  }

  lemma GoodbyeBounded(p: Plan, start: int, inputs: seq<Input>) returns (i: nat)
    requires Run(p, Begin(start), inputs).flow.goodbyeRequested
    ensures var s := Run(p, Begin(start), inputs); i < |s.sent| && s.sent[i].Goodbye? && Bounded(s, s.sent[i])
  {
    hide Run, OnceEach, TimersOk;
    TraceThroughout(p, start, inputs);
    i := GoodbyeIsSent(Run(p, Begin(start), inputs).sent);
    RunLater(p, start, [], inputs);
    assert [] + inputs == inputs;
    RunsNothing(p, start);
  }

  lemma RunsNothing(p: Plan, start: int)
    ensures Run(p, Begin(start), []) == Begin(start)
  {
  }

  lemma IdleWaits(p: Plan, s: Call, io: Io)
    requires TimersOk(s)
    ensures s.timers.userSpeaking && s.over.None? ==> Handle(p, s, IdleTimer, io).over.None?
  {
  }

  lemma HardEnds(p: Plan, s: Call, io: Io, m: Sent)
    requires m.Goodbye? && Bounded(s, m)
    ensures EndsBy(p, s, io, m)
  {
  }
}
