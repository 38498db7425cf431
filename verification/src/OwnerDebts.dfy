// What becomes of each tool result on an owner call: it is owed until the response meant to
// speak it finishes unbroken, or until the next tool result takes its place.
module OwnerDebts {
  import opened Prelude
  import opened OwnerPricing
  import opened OwnerCall
  import opened OwnerTrace

  // ----- What one event does to the debt -----

  // The response that is done counts: its id is new and its usage is sound.
  predicate Countable(s: Call, e: Event) {
    && s.over.None? && e.Done? && e.id != "" && e.id !in s.seen && e.usage.Some?
    && Counted(s.ledger, e.usage.value).audioTokens <= Counted(s.ledger, e.usage.value).input + Counted(s.ledger, e.usage.value).output
  }

  // The response meant to speak the result that is owed finishes, heard to its end.
  predicate Settles(s: Call, e: Event) {
    Countable(s, e) && s.tools.owed != "" && e.id == s.tools.owedResponse && !Silenced(s.speech, e.id) && !e.cancelled
  }

  // That response, or one that none was told apart from, finishes talked over or cancelled.
  predicate GoesUnheard(s: Call, e: Event) {
    && Countable(s, e) && s.tools.owed != "" && (e.id == s.tools.owedResponse || s.tools.owedResponse == "")
    && (Silenced(s.speech, e.id) || e.cancelled)
  }

  // A tool call is admitted, run and answered, and its result handed to the model.
  predicate Returns(p: Plan, s: Call, e: Event, io: Io) {
    && s.over.None? && e.ToolCall? && !Silenced(s.speech, e.response)
    && e.name in p.tools && e.call != "" && e.call !in s.tools.run && !e.args.Malformed? && e.name != END_CALL
    && (Searches(e.name, e.args) ==> SearchFits(p, s.ledger.cost)) && io.tool.Answered?
  }

  // A tool call of a talked-over response is dropped, and the model will be told so.
  predicate Drops(p: Plan, s: Call, e: Event) {
    && s.over.None? && e.ToolCall? && Silenced(s.speech, e.response)
    && e.name in p.tools && e.name != END_CALL && e.call != "" && e.call !in s.tools.dropped
  }

  // The tool results handed to the model, by call id.
  function Results(sent: seq<Sent>): seq<string> {
    if sent == [] then []
    else Results(sent[..|sent| - 1]) + if sent[|sent| - 1].ToolOutput? then [sent[|sent| - 1].call] else []
  }

  lemma ResultSent(sent: seq<Sent>, m: Sent)
    ensures Results(sent + [m]) == Results(sent) + if m.ToolOutput? then [m.call] else []
  {
    assert (sent + [m])[..|sent|] == sent;
  }

  lemma {:induction false} RemindersAreNoResults(sent: seq<Sent>, notes: seq<Reminder>)
    ensures Results(sent + Reminding(notes)) == Results(sent)
  {
    if notes == [] {
      assert sent + Reminding(notes) == sent;
    } else {
      var fewer, last := notes[..|notes| - 1], notes[|notes| - 1];
      RemindersAreNoResults(sent, fewer);
      ResultSent(sent + Reminding(fewer), Remind(last));
      assert sent + Reminding(notes) == (sent + Reminding(fewer)) + [Remind(last)];
    }
  }

  // Neither what is owed nor what was raised or handed over has changed.
  ghost predicate SameDebts(s: Call, t: Call) {
    && t.tools.owed == s.tools.owed && t.tools.owedResponse == s.tools.owedResponse
    && Raised(t) == Raised(s) && Results(t.sent) == Results(s.sent)
  }

  lemma SendDebts(s: Call, m: Sent)
    ensures !m.Remind? && !m.ToolOutput? ==> SameDebts(s, Send(s, m))
    ensures m.ToolOutput? ==> Raised(Send(s, m)) == Raised(s) && Results(Send(s, m).sent) == Results(s.sent) + [m.call]
  {
    Sending(s.sent, m);
    ResultSent(s.sent, m);
  }

  lemma SendGoodbyeDebts(s: Call, io: Io, otherwise: Reason)
    ensures SameDebts(s, SendGoodbye(s, io, otherwise))
  {
    SendDebts(s, Goodbye(WrapReason(s.flow), io.now));
  }

  lemma StartGoodbyeDebts(s: Call, io: Io, why: Reason, otherwise: Reason)
    ensures SameDebts(s, StartGoodbye(s, io, why, otherwise))
  {
    hide SendGoodbye;
    SendGoodbyeDebts(s.(flow := s.flow.(wrap := Some(why), queued := false)), io, otherwise);
  }

  lemma SendReplyDebts(s: Call, io: Io, otherwise: Reason)
    ensures SameDebts(s, SendReply(s, io, otherwise))
  {
    var notes := s.sent + Reminding(s.tools.reminders);
    SendingReminders(s.sent, s.tools.reminders);
    RemindersAreNoResults(s.sent, s.tools.reminders);
    Sending(notes, Reply);
    ResultSent(notes, Reply);
  }

  lemma RequestDebts(p: Plan, s: Call, io: Io, otherwise: Reason)
    ensures SameDebts(s, Request(p, s, io, otherwise))
  {
    hide OverCap, StartGoodbye, SendReply;
    StartGoodbyeDebts(s, io, CostLimit, otherwise);
    SendReplyDebts(s, io, otherwise);
  }

  lemma NextDebts(p: Plan, s: Call, io: Io, id: string)
    ensures SameDebts(s, Next(p, s, io, id))
  {
    hide Request, StartGoodbye, SendGoodbye, OverCap, DrainMs;
    StartGoodbyeDebts(s, io, CostLimit, CostLimit);
    SendGoodbyeDebts(s, io, WrapReason(s.flow));
    RequestDebts(p, s.(flow := s.flow.(queued := false)), io, RequestFailed);
  }

  // What was raised grew by exactly more.
  ghost predicate Raises(s: Call, t: Call, more: seq<Reminder>) { Raised(t) == Raised(s) + more }

  lemma DoneDebts(p: Plan, s: Call, e: Event, io: Io)
    requires e.Done? && s.over.None?
    ensures
      var t := OnDone(p, s, io, e.id, e.cancelled, e.usage);
      && t.tools.owed == (if Settles(s, e) then "" else s.tools.owed)
      && (t.tools.owedResponse == s.tools.owedResponse || t.tools.owedResponse == "")
      && Raises(s, t, if GoesUnheard(s, e) then [Unheard(s.tools.owed)] else []) && Results(t.sent) == Results(s.sent)
  {
    hide Next, Counted;
    if Countable(s, e) {
      NextDebts(p, Finished(s, e.id, e.cancelled, Counted(s.ledger, e.usage.value)), io, e.id);
    }
  }

  lemma RunToolDebts(p: Plan, s: Call, io: Io, response: string, name: string, call: string, search: bool)
    ensures
      var t := RunTool(p, s, io, response, name, call, search);
      && Raised(t) == Raised(s)
      && (io.tool.Answered? ==> t.tools.owed == name && t.tools.owedResponse == "" && Results(t.sent) == Results(s.sent) + [call])
      && (io.tool.NoAnswer? ==> SameDebts(s, t))
  {
    hide Request, Results, Reminded;
    var run := Send(s, ToolRun(call, name, response));
    SendDebts(s, ToolRun(call, name, response));
    if io.tool.Answered? {
      var cost := s.ledger.cost;
      var spent := if search then cost + SEARCH_USD else cost;
      var kept := if search && io.tool.refundable then spent - SEARCH_USD else spent;
      var t := run.(ledger := s.ledger.(cost := kept), tools := s.tools.(owed := name, owedResponse := ""));
      SendDebts(t, ToolOutput(call));
      RequestDebts(p, Send(t, ToolOutput(call)), io, ToolReplyFailed);
    }
  }

  lemma ToolCallDebts(p: Plan, s: Call, e: Event, io: Io)
    requires e.ToolCall? && s.over.None?
    ensures
      var t := OnToolCall(p, s, io, e.response, e.name, e.call, e.args);
      && t.tools.owed == (if Returns(p, s, e, io) then e.name else s.tools.owed)
      && t.tools.owedResponse == (if Returns(p, s, e, io) then "" else s.tools.owedResponse)
      && Raises(s, t, if Drops(p, s, e) then [Dropped(e.name)] else [])
      && Results(t.sent) == Results(s.sent) + if Returns(p, s, e, io) then [e.call] else []
  {
    hide RunTool, StartGoodbye, SearchFits, Results, Reminded;
    var t := s.(tools := s.tools.(run := s.tools.run + {e.call}));
    StartGoodbyeDebts(t, io, CostLimit, CostLimit);
    RunToolDebts(p, t, io, e.response, e.name, e.call, Searches(e.name, e.args));
  }

  lemma SpeechDebts(s: Call, io: Io)
    ensures SameDebts(s, OnSpeechStarted(s, io))
  {
    hide StopPlayback, Results, Reminded;
    var t := s.(timers := Touched(s.timers.(userSpeaking := true), io.now));
    SendDebts(t, Cancel(s.speech.cancels + 1));
    StopDebts(t, io);
    StopDebts(BargeIn(t), io);
  }

  lemma StopDebts(s: Call, io: Io)
    ensures SameDebts(s, StopPlayback(s, io))
  {
    hide Results, Reminded, Heard;
    SendDebts(s, ClearPlayback);
    SendDebts(Send(s, ClearPlayback), Truncate(s.playback.item, Heard(s.playback, io.now)));
  }

  lemma AskingDebts(p: Plan, s: Call, io: Io)
    ensures SameDebts(s, OnConfigured(p, s, io)) && SameDebts(s, OnCommitted(p, s, io)) && SameDebts(s, OnSpeechStopped(s, io))
  {
    hide Request, Results, Reminded;
    RequestDebts(p, s.(flow := s.flow.(configured := true)), io, RequestFailed);
    RequestDebts(p, Touch(s, io.now), io, RequestFailed);
  }

  lemma OutputDebts(s: Call, io: Io, e: Event)
    ensures e.Audio? ==> SameDebts(s, OnAudio(s, io, e.response, e.item, e.valid, e.ms))
    ensures e.Transcript? ==> SameDebts(s, OnTranscript(s, io, e.assistant, e.response, e.item))
  {
    hide Results, Reminded;
    if e.Audio? { SendDebts(s, Play(e.response, e.item, e.ms)); }
    else if e.Transcript? { SendDebts(s, Posted(s.turns + 1, (e.assistant, e.item))); }
  }

  lemma OutsideDebts(s: Call, io: Io, e: Event)
    ensures SameDebts(s, OnPhone(s, io, e)) && SameDebts(s, OnTimer(s, io, e))
  {
    hide Results, Reminded, StartGoodbye;
    SendDebts(s, Microphone);
    StartGoodbyeDebts(s, io, DurationLimit, DurationLimit);
  }

  function OwedAfter(p: Plan, s: Call, e: Event, io: Io): string {
    if Returns(p, s, e, io) then e.name else if Settles(s, e) then "" else s.tools.owed
  }

  // A step assigns the debt a response only when that response is announced over no speech.
  ghost predicate Assigns(s: Call, e: Event) { e.Created? && !s.speech.interrupted && s.tools.owed != "" && s.tools.owedResponse == "" }

  function RaisedBy(p: Plan, s: Call, e: Event): seq<Reminder> {
    if Drops(p, s, e) then [Dropped(e.name)] else if GoesUnheard(s, e) then [Unheard(s.tools.owed)] else []
  }

  // Every event, exactly.
  lemma DebtStep(p: Plan, s: Call, e: Event, io: Io)
    ensures
      var t := Handle(p, s, e, io);
      && t.tools.owed == OwedAfter(p, s, e, io)
      && (t.tools.owedResponse == s.tools.owedResponse || t.tools.owedResponse == ""
          || (Assigns(s, e) && t.tools.owedResponse == e.id))
      && (Returns(p, s, e, io) ==> t.tools.owedResponse == "")
      && Raises(s, t, RaisedBy(p, s, e))
      && Results(t.sent) == Results(s.sent) + if Returns(p, s, e, io) then [e.call] else []
  {
    hide OnToolCall, OnDone, OnAudio, OnTranscript, OnPhone, OnTimer, OnSpeechStarted, OnConfigured, OnCommitted, OnSpeechStopped,
         Returns, Drops, Settles, GoesUnheard, Reminded, Results;
    if s.over.None? && e.ToolCall? { ToolCallDebts(p, s, e, io); NotDone(s, e); }
    else if s.over.None? && e.Done? { DoneDebts(p, s, e, io); NotTool(p, s, e, io); }
    else {
      NotDone(s, e);
      NotTool(p, s, e, io);
      SpeechDebts(s, io);
      AskingDebts(p, s, io);
      OutputDebts(s, io, e);
      OutsideDebts(s, io, e);
    }
  }

  lemma NotDone(s: Call, e: Event)
    requires !e.Done? || s.over.Some?
    ensures !Settles(s, e) && !GoesUnheard(s, e)
  {
  }

  lemma NotTool(p: Plan, s: Call, e: Event, io: Io)
    requires !e.ToolCall? || s.over.Some?
    ensures !Returns(p, s, e, io) && !Drops(p, s, e)
  {
  }

  // ----- Over whole runs -----

  // The state before the k-th event of a call.
  function At(p: Plan, start: int, inputs: seq<Input>, k: nat): Call
    requires k <= |inputs|
  {
    Run(p, Begin(start), inputs[..k])
  }

  lemma NextAt(p: Plan, start: int, inputs: seq<Input>, k: nat)
    requires k < |inputs|
    ensures At(p, start, inputs, k + 1) == Handle(p, At(p, start, inputs, k), inputs[k].event, inputs[k].io)
  {
    assert inputs[..k + 1][..k] == inputs[..k];
  }

  // Event k leaves the debt to a as it is: one reminder when it finished unheard, and for
  // anything else at most that a tool call was dropped.
  ghost predicate Stays(p: Plan, start: int, inputs: seq<Input>, k: nat, a: string)
    requires k < |inputs|
  {
    var s, t, i := At(p, start, inputs, k), At(p, start, inputs, k + 1), inputs[k];
    && s.tools.owed == a && !Settles(s, i.event) && !Returns(p, s, i.event, i.io)
    && Raises(s, t, if GoesUnheard(s, i.event) then [Unheard(a)] else if Drops(p, s, i.event) then [Dropped(i.event.name)] else [])
  }

  // Event k ends the debt: the response meant to speak the result was heard to its end, or
  // the next result takes its place. No reminder is raised.
  ghost predicate Ends(p: Plan, start: int, inputs: seq<Input>, k: nat)
    requires k < |inputs|
  {
    var s, t, i := At(p, start, inputs, k), At(p, start, inputs, k + 1), inputs[k];
    && Raised(t) == Raised(s)
    && ((Settles(s, i.event) && t.tools.owed == "") || (Returns(p, s, i.event, i.io) && t.tools.owed == i.event.name))
  }

  // Response id was announced, over no speech, by one of the events from m up to k.
  ghost predicate AnnouncedIn(p: Plan, start: int, inputs: seq<Input>, m: nat, k: nat, id: string)
    requires k <= |inputs|
  {
    exists j :: m <= j < k && inputs[j].event == Created(id) && !At(p, start, inputs, j).speech.interrupted
  }

  // Result a has been owed since moment m, and the response meant to speak it came after.
  ghost predicate OwedSince(p: Plan, start: int, inputs: seq<Input>, m: nat, k: nat, a: string)
    requires k <= |inputs|
  {
    && m <= k && At(p, start, inputs, k).tools.owed == a && (forall j :: m <= j < k ==> Stays(p, start, inputs, j, a))
    && (At(p, start, inputs, k).tools.owedResponse != "" ==>
          AnnouncedIn(p, start, inputs, m, k, At(p, start, inputs, k).tools.owedResponse))
  }

  predicate Ending(p: Plan, s: Call, i: Input) { Settles(s, i.event) || Returns(p, s, i.event, i.io) }

  lemma StaysOwed(p: Plan, start: int, inputs: seq<Input>, m: nat, k: nat, a: string)
    requires k < |inputs| && OwedSince(p, start, inputs, m, k, a) && !Ending(p, At(p, start, inputs, k), inputs[k])
    ensures OwedSince(p, start, inputs, m, k + 1, a)
  {
    hide At, Settles, Returns, GoesUnheard, Drops, Handle;
    var s, i := At(p, start, inputs, k), inputs[k];
    NextAt(p, start, inputs, k);
    DebtStep(p, s, i.event, i.io);
    UnheardIsDone(p, s, i.event);
    var t := At(p, start, inputs, k + 1);
    if t.tools.owedResponse != "" {
      if t.tools.owedResponse == s.tools.owedResponse {
        var j :| m <= j < k && inputs[j].event == Created(t.tools.owedResponse) && !At(p, start, inputs, j).speech.interrupted;
      } else {
        assert i.event == Created(t.tools.owedResponse);
      }
    }
  }

  lemma UnheardIsDone(p: Plan, s: Call, e: Event)
    ensures GoesUnheard(s, e) || Settles(s, e) ==> !Drops(p, s, e) && e.Done?
    ensures Settles(s, e) ==> !GoesUnheard(s, e) && s.tools.owedResponse == e.id != ""
  {
  }

  lemma OwedEnds(p: Plan, start: int, inputs: seq<Input>, m: nat, k: nat, a: string)
    requires k < |inputs| && OwedSince(p, start, inputs, m, k, a) && Ending(p, At(p, start, inputs, k), inputs[k])
    ensures Ends(p, start, inputs, k)
    ensures inputs[k].event.Done? ==> AnnouncedIn(p, start, inputs, m, k, inputs[k].event.id)
  {
    hide At, GoesUnheard, Handle;
    var s, i := At(p, start, inputs, k), inputs[k];
    NextAt(p, start, inputs, k);
    DebtStep(p, s, i.event, i.io);
    UnheardIsDone(p, s, i.event);
  }

  // From any moment m at which result a is owed and no response is meant to speak it yet, as
  // when it was just handed over: it stays owed up to some moment k, each response that was
  // to speak it and went unheard raising one reminder, and nothing else any for it. There the
  // inputs end, or a response announced since is heard to its end, or the next result replaces it.
  lemma OwedResultsAreSpoken(p: Plan, start: int, inputs: seq<Input>, m: nat) returns (k: nat)
    requires m <= |inputs| && At(p, start, inputs, m).tools.owed != "" && At(p, start, inputs, m).tools.owedResponse == ""
    ensures m <= k <= |inputs|
    ensures
      var a := At(p, start, inputs, m).tools.owed;
      && At(p, start, inputs, k).tools.owed == a
      && (forall j :: m <= j < k ==> Stays(p, start, inputs, j, a))
      && (k < |inputs| ==> Ends(p, start, inputs, k))
      && (k < |inputs| && inputs[k].event.Done? ==> AnnouncedIn(p, start, inputs, m, k, inputs[k].event.id))
  {
    hide At, Ending, Stays, Ends, AnnouncedIn;
    var a := At(p, start, inputs, m).tools.owed;
    k := m;
    while k < |inputs| && !Ending(p, At(p, start, inputs, k), inputs[k])
      invariant m <= k <= |inputs| && OwedSince(p, start, inputs, m, k, a)
    {
      StaysOwed(p, start, inputs, m, k, a);
      k := k + 1;
    }
    if k < |inputs| { OwedEnds(p, start, inputs, m, k, a); }
  }

  // ----- Results that are lost -----

  // A result is handed over while another is still owed; or under no name, which is owed to no one.
  predicate Loses(p: Plan, s: Call, i: Input) { Returns(p, s, i.event, i.io) && (s.tools.owed != "" || i.event.name == "") }

  function Debt(s: Call): nat { if s.tools.owed != "" then 1 else 0 }

  // How many results were heard to their end, and how many were lost.
  function Heards(p: Plan, start: int, inputs: seq<Input>): nat {
    if inputs == [] then 0
    else
      var before := inputs[..|inputs| - 1];
      Heards(p, start, before) + if Settles(Run(p, Begin(start), before), inputs[|inputs| - 1].event) then 1 else 0
  }

  function Losts(p: Plan, start: int, inputs: seq<Input>): nat {
    if inputs == [] then 0
    else
      var before, last := inputs[..|inputs| - 1], inputs[|inputs| - 1];
      var s := Run(p, Begin(start), before);
      Losts(p, start, before) + if Returns(p, s, last.event, last.io) then Debt(s) + (if last.event.name == "" then 1 else 0) else 0
  }

  // Every result handed to the model was heard to its end, or is owed, or was lost.
  lemma {:induction false} ResultsAreConserved(p: Plan, start: int, inputs: seq<Input>)
    ensures
      var s := Run(p, Begin(start), inputs);
      |Results(s.sent)| == Heards(p, start, inputs) + Debt(s) + Losts(p, start, inputs)
  {
    hide Handle, Settles, Returns, GoesUnheard, Drops;
    if inputs != [] {
      var before, last := inputs[..|inputs| - 1], inputs[|inputs| - 1];
      var s := Run(p, Begin(start), before);
      ResultsAreConserved(p, start, before);
      DebtStep(p, s, last.event, last.io);
      UnheardIsDone(p, s, last.event);
      SettlesWhatIsOwed(p, s, last.event, last.io);
    }
  }

  lemma SettlesWhatIsOwed(p: Plan, s: Call, e: Event, io: Io)
    ensures Settles(s, e) ==> s.tools.owed != "" && !Returns(p, s, e, io)
  {
  }

  ghost predicate NoneLost(p: Plan, start: int, inputs: seq<Input>) {
    forall k :: 0 <= k < |inputs| ==> !Loses(p, At(p, start, inputs, k), inputs[k])
  }

  lemma {:induction false} LostsExactly(p: Plan, start: int, inputs: seq<Input>)
    ensures Losts(p, start, inputs) == 0 <==> NoneLost(p, start, inputs)
  {
    hide Returns, Run;
    if inputs != [] {
      var before, last := inputs[..|inputs| - 1], inputs[|inputs| - 1];
      LostsExactly(p, start, before);
      assert inputs[..|before|] == before;
      assert forall k :: 0 <= k < |before| ==> before[..k] == inputs[..k];
      if NoneLost(p, start, inputs) {
        assert !Loses(p, At(p, start, inputs, |before|), last);
        forall k | 0 <= k < |before|
          ensures !Loses(p, At(p, start, before, k), before[k])
        {
          assert !Loses(p, At(p, start, inputs, k), inputs[k]);
        }
      }
      if NoneLost(p, start, before) && !Loses(p, Run(p, Begin(start), before), last) {
        forall k | 0 <= k < |inputs|
          ensures !Loses(p, At(p, start, inputs, k), inputs[k])
        {
          if k < |before| { assert !Loses(p, At(p, start, before, k), before[k]); }
        }
      }
    }
  }

  // Every result handed to the model was heard to its end or is still owed, if and only if
  // no tool call ran while a result was owed, and no nameless one at all.
  lemma NoResultIsLostExactly(p: Plan, start: int, inputs: seq<Input>)
    ensures
      var s := Run(p, Begin(start), inputs);
      |Results(s.sent)| == Heards(p, start, inputs) + Debt(s) <==> NoneLost(p, start, inputs)
  {
    hide Heards, Losts, Results, Run, NoneLost;
    ResultsAreConserved(p, start, inputs);
    LostsExactly(p, start, inputs);
  }

  // ----- A run that loses one -----

  const TWO_TOOLS := Plan(100.0, 0, {"memory_search", "weather"})
  const FINE := Io(0, true, true, true, true, Answered(false))
  const NOTHING := Some(Usage(0, 0, None, None, None, None, None, None, None))
  const TWO_CALLS := [
    Configured, Created("asks"), ToolCall("asks", "memory_search", "one", Null), ToolCall("asks", "weather", "two", Null),
    Done("asks", false, NOTHING), Created("answers"), SpeechStarted, Done("answers", true, NOTHING)]

  function Inputs(events: seq<Event>): (r: seq<Input>)
    ensures |r| == |events|
  {
    seq(|events|, i requires 0 <= i < |events| => Input(events[i], FINE))
  }

  lemma OneInput(events: seq<Event>, k: nat)
    requires k < |events|
    ensures At(TWO_TOOLS, 0, Inputs(events), k + 1) == Handle(TWO_TOOLS, At(TWO_TOOLS, 0, Inputs(events), k), events[k], FINE)
  {
    NextAt(TWO_TOOLS, 0, Inputs(events), k);
  }

  const CALLED: seq<Sent> := [Reply, ToolRun("one", "memory_search", "asks"), ToolOutput("one"), ToolRun("two", "weather", "asks"), ToolOutput("two")]

  const CUT: seq<Sent> := [Reply, Cancel(1), ClearPlayback]

  // A call in progress that has cost nothing, with whatever is given.
  predicate Free(s: Call, pending: bool, queued: bool, speech: Speech, tools: Tools, seen: set<string>) {
    && s.over.None? && s.flow == Flow(true, pending, queued, None, false, false, "") && s.ledger == Ledger(0.0, 0, 0, 0, 0)
    && s.speech == speech && s.tools == tools && s.seen == seen && s.playback.item == ""
  }

  lemma RoomEnough()
    ensures !OverCap(TWO_TOOLS, 0.0)
  {
  }

  ghost predicate Empty(u: Usage) { UsageCost(u) == 0.0 && CachedCount(u) == 0 && u.input == 0 && u.output == 0 && u.audio.None? && u.audioOut.None? }

  lemma NothingIsEmpty()
    ensures Empty(NOTHING.value)
  {
    CachedCountIsTheDiscount(NOTHING.value);
  }

  lemma Opened()
    ensures
      var t := Handle(TWO_TOOLS, Begin(0), Configured, FINE);
      t.sent == [Reply] && Free(t, true, false, Speech(false, "", {}, 0), Tools({}, {}, "", "", []), {})
  {
    hide OverCap;
    RoomEnough();
  }

  lemma Announced(s: Call, tools: Tools, seen: set<string>, id: string)
    requires Free(s, true, false, Speech(false, "", {}, 0), tools, seen)
    ensures
      var t := Handle(TWO_TOOLS, s, Created(id), FINE);
      && t.sent == s.sent
      && Free(t, true, false, Speech(false, id, {}, 0), if tools.owed != "" && tools.owedResponse == "" then tools.(owedResponse := id) else tools, seen)
  {
  }

  lemma Called(s: Call, queued: bool, tools: Tools, name: string, call: string)
    requires Free(s, true, queued, Speech(false, "asks", {}, 0), tools, {})
    requires name == "memory_search" || name == "weather"
    requires call != "" && call !in tools.run
    ensures
      var t := Handle(TWO_TOOLS, s, ToolCall("asks", name, call, Null), FINE);
      && Returns(TWO_TOOLS, s, ToolCall("asks", name, call, Null), FINE)
      && t.sent == s.sent + [ToolRun(call, name, "asks"), ToolOutput(call)]
      && Free(t, true, true, Speech(false, "asks", {}, 0), tools.(run := tools.run + {call}, owed := name, owedResponse := ""), {})
  {
    hide OverCap, SearchFits;
    RoomEnough();
  }

  lemma BothCalled()
    ensures
      var s := At(TWO_TOOLS, 0, Inputs(TWO_CALLS), 3);
      && s.tools.owed == "memory_search" && Returns(TWO_TOOLS, s, TWO_CALLS[3], FINE)
      && var t := At(TWO_TOOLS, 0, Inputs(TWO_CALLS), 4);
      && t.sent == CALLED
      && Free(t, true, true, Speech(false, "asks", {}, 0), Tools({"one", "two"}, {}, "weather", "", []), {})
  {
    hide At, Handle, Returns, Inputs;
    var inputs, none := Inputs(TWO_CALLS), Tools({}, {}, "", "", []);
    BeginsThere(inputs);
    OneInput(TWO_CALLS, 0);
    Opened();
    OneInput(TWO_CALLS, 1);
    Announced(At(TWO_TOOLS, 0, inputs, 1), none, {}, "asks");
    OneInput(TWO_CALLS, 2);
    Called(At(TWO_TOOLS, 0, inputs, 2), false, none, "memory_search", "one");
    OneInput(TWO_CALLS, 3);
    var first := none.(run := none.run + {"one"}, owed := "memory_search");
    Called(At(TWO_TOOLS, 0, inputs, 3), true, first, "weather", "two");
    assert first.run + {"two"} == {"one", "two"};
  }

  lemma BeginsThere(inputs: seq<Input>)
    ensures At(TWO_TOOLS, 0, inputs, 0) == Begin(0)
  {
  }

  // A response is done that cost nothing.
  lemma DoneFree(p: Plan, s: Call, io: Io, id: string, cancelled: bool, u: Usage)
    requires s.over.None? && s.ledger == Ledger(0.0, 0, 0, 0, 0) && id != "" && id !in s.seen && Empty(u)
    ensures Handle(p, s, Done(id, cancelled, Some(u)), io) == Next(p, Finished(s, id, cancelled, s.ledger), io, id)
  {
    hide UsageCost, CachedCount, Next, Finished;
    assert Counted(s.ledger, u) == s.ledger;
  }

  lemma NextFree(s: Call, queued: bool, speech: Speech, tools: Tools, seen: set<string>, id: string)
    requires Free(s, false, queued, speech, tools, seen)
    ensures
      var t := Next(TWO_TOOLS, s, FINE, id);
      && (!queued ==> t == s)
      && (queued && tools.reminders == [] ==> t.sent == s.sent + [Reply] && Free(t, true, false, speech, tools, seen))
  {
    hide OverCap;
    RoomEnough();
    assert s.sent + Reminding([]) == s.sent;
  }

  lemma AsksDone(s: Call, tools: Tools)
    requires Free(s, true, true, Speech(false, "asks", {}, 0), tools, {}) && tools.owed != "" && tools.owedResponse == "" && tools.reminders == []
    ensures
      var t := Handle(TWO_TOOLS, s, Done("asks", false, NOTHING), FINE);
      t.sent == s.sent + [Reply] && Free(t, true, false, Speech(false, "", {}, 0), tools, {"asks"})
  {
    hide Handle, Next, Empty;
    NothingIsEmpty();
    DoneFree(TWO_TOOLS, s, FINE, "asks", false, NOTHING.value);
    NextFree(Finished(s, "asks", false, s.ledger), true, Speech(false, "", {}, 0), tools, {"asks"}, "asks");
  }

  lemma AnswersDone(s: Call, tools: Tools)
    requires Free(s, true, false, Speech(true, "answers", {"answers"}, 1), tools, {"asks"}) && tools.owed != "" && tools.owedResponse == "answers"
    ensures
      var t := Handle(TWO_TOOLS, s, Done("answers", true, NOTHING), FINE);
      && t.sent == s.sent
      && Free(t, false, false, Speech(false, "", {"answers"}, 1),
              tools.(owedResponse := "", reminders := tools.reminders + [Unheard(tools.owed)]), {"asks", "answers"})
  {
    hide Handle, Next, Empty;
    NothingIsEmpty();
    DoneFree(TWO_TOOLS, s, FINE, "answers", true, NOTHING.value);
    var cut := tools.(owedResponse := "", reminders := tools.reminders + [Unheard(tools.owed)]);
    NextFree(Finished(s, "answers", true, s.ledger), false, Speech(false, "", {"answers"}, 1), cut, {"asks", "answers"}, "answers");
  }

  lemma TalkedOver(s: Call, tools: Tools)
    requires Free(s, true, false, Speech(false, "answers", {}, 0), tools, {"asks"})
    ensures
      var t := Handle(TWO_TOOLS, s, SpeechStarted, FINE);
      t.sent == s.sent + [Cancel(1), ClearPlayback] && Free(t, true, false, Speech(true, "answers", {"answers"}, 1), tools, {"asks"})
  {
  }

  lemma AnswerCut()
    ensures
      var t := At(TWO_TOOLS, 0, Inputs(TWO_CALLS), 8);
      && t.sent == CALLED + CUT
      && Free(t, false, false, Speech(false, "", {"answers"}, 1), Tools({"one", "two"}, {}, "weather", "", [Unheard("weather")]), {"asks", "answers"})
  {
    hide At, Handle, Inputs;
    var inputs, tools := Inputs(TWO_CALLS), Tools({"one", "two"}, {}, "weather", "", []);
    BothCalled();
    OneInput(TWO_CALLS, 4);
    AsksDone(At(TWO_TOOLS, 0, inputs, 4), tools);
    OneInput(TWO_CALLS, 5);
    Announced(At(TWO_TOOLS, 0, inputs, 5), tools, {"asks"}, "answers");
    OneInput(TWO_CALLS, 6);
    TalkedOver(At(TWO_TOOLS, 0, inputs, 6), tools.(owedResponse := "answers"));
    OneInput(TWO_CALLS, 7);
    AnswersDone(At(TWO_TOOLS, 0, inputs, 7), tools.(owedResponse := "answers"));
  }

  lemma Adds(sent: seq<Sent>, m: Sent, results: seq<string>)
    requires Results(sent) == results && Reminded(sent) == [] && !m.Remind?
    ensures Results(sent + [m]) == (if m.ToolOutput? then results + [m.call] else results) && Reminded(sent + [m]) == []
  {
    ResultSent(sent, m);
    Sending(sent, m);
  }

  lemma BothResults()
    ensures Results(CALLED + CUT) == ["one", "two"] && Reminded(CALLED + CUT) == []
  {
    hide Results, Reminded;
    var all := CALLED + CUT;
    NothingYet();
    Adds([], all[0], []);
    assert all[..2] == [all[0]] + [all[1]] && [] + [all[0]] == [all[0]];
    Adds([all[0]], all[1], []);
    assert all[..3] == all[..2] + [all[2]];
    Adds(all[..2], all[2], []);
    assert all[..4] == all[..3] + [all[3]];
    Adds(all[..3], all[3], ["one"]);
    assert all[..5] == all[..4] + [all[4]];
    Adds(all[..4], all[4], ["one"]);
    Adds(CALLED, Reply, ["one", "two"]);
    Adds(CALLED + [Reply], Cancel(1), ["one", "two"]);
    Adds(CALLED + [Reply] + [Cancel(1)], ClearPlayback, ["one", "two"]);
    assert all == CALLED + [Reply] + [Cancel(1)] + [ClearPlayback];
  }

  lemma NothingYet()
    ensures Results([]) == [] && Reminded([]) == []
  {
  }

  // One response makes two tool calls, and the response that was to speak both results is
  // talked over and cancelled: the model is reminded of the second result only.
  lemma SecondCallTakesTheDebt()
    ensures
      var inputs := Inputs(TWO_CALLS);
      var s := Run(TWO_TOOLS, Begin(0), inputs);
      && Results(s.sent) == ["one", "two"] && s.tools.owed == "weather" && Raised(s) == [Unheard("weather")]
      && Losts(TWO_TOOLS, 0, inputs) == 1 && s.over.None?
  {
    hide Returns, Losts, Heards;
    var inputs := Inputs(TWO_CALLS);
    BothCalled();
    AnswerCut();
    BothResults();
    assert inputs[..8] == inputs;
    LostsExactly(TWO_TOOLS, 0, inputs);
    assert Loses(TWO_TOOLS, At(TWO_TOOLS, 0, inputs, 3), inputs[3]);
    ResultsAreConserved(TWO_TOOLS, 0, inputs);
  }
}
