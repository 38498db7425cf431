// internal/alexa: the rows of one owner, and the text rules of speech.go and
// handler.go that decide what is said out loud.
module Conversation {
  import opened Prelude

  const MAX_PENDING_REPLIES := 8
  const MAX_REPLY_QUEUE_BYTES := 131072
  const MAX_MESSAGES := 12
  const MAX_CONTEXT_BYTES := 24576
  const RECOVERY_WINDOW := 900          // seconds
  const WORKER_BUDGET := 30000          // milliseconds
  const LOCK_BUDGET := 35000            // milliseconds
  const CHUNK := 545                    // runes
  const CHUNK_FLOOR := 300              // runes

  datatype Identity = Identity(device: string, grant: string, generation: string)

  // digest(device + NUL + request); the digest is taken as injective.
  datatype Receipt = Receipt(device: string, request: string)

  datatype Status = Pending | Running | Complete | Failed | Cancelled

  predicate Active(s: Status) { s == Pending || s == Running }

  datatype Reason =
    | NoReason
    | SettingsChanged
    | QueueUnavailable
    | WorkerInterrupted
    | Stopped
    | ExecutionFailed
    | ReplyLimit
    | UsageLimit(monthly: bool, afterAction: bool, resets: Option<string>)

  datatype Role = User | Assistant | ToolResult

  // calls: ids of the tool calls an assistant message makes; callId: the call a tool result answers.
  datatype Message = Message(role: Role, content: string, calls: seq<string>, callId: string)

  datatype Exchange = Exchange(receipt: Receipt, messages: seq<Message>)

  datatype Reply = Reply(receipt: Receipt, state: Status, text: string, offset: nat)

  datatype Session = Session(
    id: nat, ask: string, grant: string, generation: string, lastTurn: Option<Receipt>,
    history: seq<Exchange>, startedAt: int, turns: nat, replies: seq<Reply>,
    lastSpeech: string, lastSpeechReceipt: Option<Receipt>, lastSpeechState: Status, lastSpeechMore: bool)

  datatype Turn = Turn(
    ident: Identity, id: Receipt, sessionId: nat, input: string, state: Status, failure: Reason,
    settings: int, deadline: int)

  datatype RunResult = RunResult(text: string, messages: seq<Message>, limited: bool)

  // The fixed sentences spoken instead of an answer.
  datatype Notice = TimedOut | ExpiredAnswer | FullAnswer | AnswerGone | Failure(reason: Reason)

  // Functions the model leaves open: safeSpeech, unicode.IsSpace, encoded sizes, and,
  // outside this file, the wording of the notices.
  datatype Env = Env(
    safe: string -> string, space: char -> bool, bytes: string -> nat,
    queueBytes: seq<Reply> -> nat, historyBytes: seq<Exchange> -> nat, say: Notice -> string)

  // ----- What a failed or unfinished turn says -----

  function LimitSpeech(monthly: bool, afterAction: bool, resets: Option<string>): string {
    var scope := if monthly then "monthly usage limit" else "usage limit";
    var when := if resets.Some? then " It resets on " + resets.value + "." else "";
    if afterAction then
      "That request did not finish. Some work may have completed. Check Live Ninja before repeating an action. Your Live Ninja "
      + scope + " is reached." + when
    else
      "Your Live Ninja " + scope + " is reached, so nothing was done." + when
  }

  function FailureSpeech(reason: Reason): string {
    match reason
    case UsageLimit(monthly, afterAction, resets) => LimitSpeech(monthly, afterAction, resets)
    case SettingsChanged => "That request did not finish. Your settings or access changed; start a new request."
    case QueueUnavailable => "That request did not finish. The queue was unavailable; no automatic retry will run."
    case WorkerInterrupted => "That request did not finish. The worker was interrupted; check any action before repeating it."
    case Stopped => "That request did not finish. You stopped this conversation."
    case ExecutionFailed => "That request did not finish. Some work may have completed. Check Live Ninja before repeating an action."
    case ReplyLimit => "That request did not finish. Its answer was too large to retain. Check Live Ninja before repeating an action."
    case NoReason => "That request did not finish. "
  }

  function Wording(n: Notice): string {
    match n
    case TimedOut => "That request timed out. Its outcome may be incomplete. I will not repeat it automatically."
    case ExpiredAnswer => "An earlier answer expired. Check Live Ninja before repeating an action."
    case FullAnswer => "That is the full answer."
    case AnswerGone => "That request completed, but its answer is no longer in this conversation's recovery window."
    case Failure(reason) => FailureSpeech(reason)
  }

  // What the protocol relies on: the notices Speech itself decides on fit one chunk, and
  // safeSpeech leaves the two it is applied to as they are (no markup, link, code or key).
  ghost predicate NoticesFit(env: Env) {
    && |env.say(TimedOut)| <= CHUNK && |env.say(ExpiredAnswer)| <= CHUNK && |env.say(FullAnswer)| <= CHUNK
    && |env.say(Failure(WorkerInterrupted))| <= CHUNK
    && env.safe(env.say(TimedOut)) == env.say(TimedOut)
    && env.safe(env.say(Failure(WorkerInterrupted))) == env.say(Failure(WorkerInterrupted))
  }

  // The wording in use meets it.
  lemma WordingFits(env: Env)
    requires env.say == Wording
    requires env.safe(Wording(TimedOut)) == Wording(TimedOut)
    requires env.safe(Wording(Failure(WorkerInterrupted))) == Wording(Failure(WorkerInterrupted))
    ensures NoticesFit(env)
  {
    hide Wording;
    TimeoutIsShort();
    ExpiryIsShort();
    FullAnswerIsShort();
    InterruptionIsShort();
  }

  lemma TimeoutIsShort()
    ensures |Wording(TimedOut)| <= CHUNK
  {
    hide FailureSpeech;
  }

  lemma ExpiryIsShort()
    ensures |Wording(ExpiredAnswer)| <= CHUNK
  {
    hide FailureSpeech;
  }

  lemma FullAnswerIsShort()
    ensures |Wording(FullAnswer)| <= CHUNK
  {
    hide FailureSpeech;
  }

  lemma InterruptionIsShort()
    ensures |Wording(Failure(WorkerInterrupted))| <= CHUNK
  {
    hide LimitSpeech;
  }

  // ----- viewTurn's text -----

  function StoredAnswer(replies: seq<Reply>, id: Receipt): string {
    if replies == [] then ""
    else if replies[0].receipt == id && replies[0].state == Complete && replies[0].text != "" then replies[0].text
    else StoredAnswer(replies[1..], id)
  }

  function LastPlainAnswer(messages: seq<Message>): Option<string> {
    if messages == [] then None
    else
      var m := messages[|messages| - 1];
      if m.role == Assistant && m.calls == [] then Some(m.content)
      else LastPlainAnswer(messages[..|messages| - 1])
  }

  function HistoryAnswer(history: seq<Exchange>, id: Receipt): string {
    if history == [] then ""
    else
      var x := history[|history| - 1];
      var answer := if x.receipt == id then LastPlainAnswer(x.messages) else None;
      if answer.Some? then answer.value else HistoryAnswer(history[..|history| - 1], id)
  }

  function ViewText(env: Env, t: Turn, session: Session): string {
    var stored := StoredAnswer(session.replies, t.id);
    if stored != "" then stored
    else
      var text := if t.state == Failed || t.state == Cancelled then env.say(Failure(t.failure))
                  else HistoryAnswer(session.history, t.id);
      if t.state == Complete && text == "" then env.say(AnswerGone) else text
  }

  lemma {:induction false} NoStoredAnswer(replies: seq<Reply>, id: Receipt)
    requires forall i :: 0 <= i < |replies| && replies[i].receipt == id ==> replies[i].state != Complete
    ensures StoredAnswer(replies, id) == ""
  {
    if replies != [] {
      assert replies[0].receipt == id ==> replies[0].state != Complete;
      forall i | 0 <= i < |replies[1..]| && replies[1..][i].receipt == id
        ensures replies[1..][i].state != Complete
      {
        assert replies[1..][i] == replies[i + 1];
      }
      NoStoredAnswer(replies[1..], id);
    }
  }

  // ----- speechChunk -----

  function Trim(space: char -> bool, s: string): string {
    TrimEnd(space, TrimStart(space, s))
  }

  function TrimStart(space: char -> bool, s: string): (r: string)
    ensures |r| <= |s|
  {
    if s != [] && space(s[0]) then TrimStart(space, s[1..]) else s
  }

  function TrimEnd(space: char -> bool, s: string): (r: string)
    ensures |r| <= |s|
  {
    if s != [] && space(s[|s| - 1]) then TrimEnd(space, s[..|s| - 1]) else s
  }

  // strings.TrimSpace: what is left starts and ends with no white space, and what was taken
  // away is nothing else.
  lemma TrimIsExact(space: char -> bool, s: string) returns (i: nat, j: nat)
    ensures i <= j <= |s| && Trim(space, s) == s[i..j]
    ensures forall k :: 0 <= k < i || j <= k < |s| ==> space(s[k])
    ensures i < j ==> !space(s[i]) && !space(s[j - 1])
  {
    i := StartsAt(space, s);
    var t := s[i..];
    var n := EndsAt(space, t);
    j := i + n;
    assert t[..n] == s[i..j];
    forall k | j <= k < |s|
      ensures space(s[k])
    {
      assert t[k - i] == s[k];
    }
  }

  lemma {:induction false} StartsAt(space: char -> bool, s: string) returns (i: nat)
    ensures i <= |s| && TrimStart(space, s) == s[i..] && (i < |s| ==> !space(s[i]))
    ensures forall k :: 0 <= k < i ==> space(s[k])
  {
    if s != [] && space(s[0]) {
      i := StartsAt(space, s[1..]);
      assert forall k :: 0 < k < i + 1 ==> s[1..][k - 1] == s[k];
      i := i + 1;
    } else {
      i := 0;
    }
  }

  lemma {:induction false} EndsAt(space: char -> bool, s: string) returns (n: nat)
    ensures n <= |s| && TrimEnd(space, s) == s[..n] && (n > 0 ==> !space(s[n - 1]))
    ensures forall k :: n <= k < |s| ==> space(s[k])
  {
    if s != [] && space(s[|s| - 1]) {
      n := EndsAt(space, s[..|s| - 1]);
      assert s[..|s| - 1][..n] == s[..n];
    } else {
      n := |s|;
    }
  }

  // Something of the text is not white space.
  ghost predicate Says(space: char -> bool, s: string) { exists k :: 0 <= k < |s| && !space(s[k]) }

  lemma TrimmedIsBlankExactly(space: char -> bool, s: string)
    ensures Trim(space, s) != "" <==> Says(space, s)
  {
    var i, j := TrimIsExact(space, s);
    if i < j { assert !space(s[i]); }
  }

  // cut is the last place in (start+300, start+545] that ends in whitespace.
  ghost predicate LastBreak(space: char -> bool, text: string, start: nat, cut: nat)
    requires start + CHUNK <= |text|
  {
    && start + CHUNK_FLOOR < cut <= start + CHUNK
    && space(text[cut - 1])
    && forall p :: cut <= p < start + CHUNK ==> !space(text[p])
  }

  // Where the chunk that begins at start ends.
  ghost predicate ChunkEnds(space: char -> bool, text: string, start: nat, end: nat) {
    if start >= |text| then end == |text|
    else if start + CHUNK >= |text| then end == |text|
    else
      || LastBreak(space, text, start, end)
      || (end == start + CHUNK && forall p :: start + CHUNK_FLOOR <= p < start + CHUNK ==> !space(text[p]))
  }

  function ChunkEnd(space: char -> bool, text: string, start: nat): (end: nat)
    ensures ChunkEnds(space, text, start, end)
    ensures start < |text| ==> start < end <= Min(start + CHUNK, |text|)
  {
    if start + CHUNK >= |text| then |text| else Break(space, text, start, start + CHUNK)
  }

  function Break(space: char -> bool, text: string, start: nat, cut: nat): (end: nat)
    requires start + CHUNK < |text| && start + CHUNK_FLOOR <= cut <= start + CHUNK
    requires forall p :: cut <= p < start + CHUNK ==> !space(text[p])
    ensures ChunkEnds(space, text, start, end) && start < end
    decreases cut
  {
    if cut == start + CHUNK_FLOOR then start + CHUNK
    else if space(text[cut - 1]) then cut
    else Break(space, text, start, cut - 1)
  }

  lemma ChunkEndIsUnique(space: char -> bool, text: string, start: nat, a: nat, b: nat)
    requires ChunkEnds(space, text, start, a) && ChunkEnds(space, text, start, b)
    ensures a == b
  {
    if start + CHUNK < |text| {
      var p := (if a < b then b else a) - 1;
      assert start + CHUNK_FLOOR <= p < start + CHUNK;
      var silent := !space(text[p]);
    }
  }

  function ChunkText(env: Env, text: string, start: nat): (chunk: string)
    ensures |chunk| <= CHUNK || chunk == env.say(FullAnswer)
  {
    if start >= |text| then env.say(FullAnswer)
    else Trim(env.space, text[start..ChunkEnd(env.space, text, start)])
  }

  method SpeechChunk(env: Env, text: string, start: nat) returns (chunk: string, end: nat, more: bool)
    ensures end == ChunkEnd(env.space, text, start)
    ensures chunk == ChunkText(env, text, start)
    ensures more <==> end < |text|
  {
    if start >= |text| {
      return env.say(FullAnswer), |text|, false;
    }
    end := start + CHUNK;
    if end >= |text| {
      end := |text|;
    } else {
      var cut := end;
      while cut > start + CHUNK_FLOOR && !env.space(text[cut - 1])
        invariant start + CHUNK_FLOOR <= cut <= start + CHUNK
        invariant forall p :: cut <= p < start + CHUNK ==> !env.space(text[p])
      {
        cut := cut - 1;
      }
      if cut > start + CHUNK_FLOOR { end := cut; }
      assert ChunkEnds(env.space, text, start, end);
      ChunkEndIsUnique(env.space, text, start, end, ChunkEnd(env.space, text, start));
    }
    chunk := Trim(env.space, text[start..end]);
    more := end < |text|;
  }

  // The parts heard when the cursor is driven from start until nothing more is left.
  function Parts(space: char -> bool, text: string, start: nat): (parts: seq<string>)
    decreases if start < |text| then |text| - start else 0
  {
    var end := ChunkEnd(space, text, start);
    if end >= |text| then [if start >= |text| then "" else text[start..]]
    else [text[start..end]] + Parts(space, text, end)
  }

  function Concat(parts: seq<string>): string {
    if parts == [] then "" else parts[0] + Concat(parts[1..])
  }

  // Saying "more" until the end reads the text out once, in order, nothing twice and
  // nothing missing, in pieces of 1 to 545 runes of which only the last may be under 301.
  lemma {:induction false} PartsPartitionText(space: char -> bool, text: string, start: nat)
    requires start < |text|
    ensures Concat(Parts(space, text, start)) == text[start..]
    ensures forall i :: 0 <= i < |Parts(space, text, start)| ==> 0 < |Parts(space, text, start)[i]| <= CHUNK
    ensures forall i :: 0 <= i < |Parts(space, text, start)| - 1 ==> |Parts(space, text, start)[i]| > CHUNK_FLOOR
    decreases |text| - start
  {
    var end := ChunkEnd(space, text, start);
    var parts := Parts(space, text, start);
    if end >= |text| {
      assert parts == [text[start..]];
      assert Concat(parts) == text[start..] + Concat([]);
    } else {
      PartsPartitionText(space, text, end);
      assert parts == [text[start..end]] + Parts(space, text, end);
      assert parts[1..] == Parts(space, text, end);
      assert text[start..] == text[start..end] + text[end..];
    }
  }

  // ----- viewResponse: from a view to the text handed to speak -----

  const EARLIER := "Earlier answer: "
  const SAY_MORE := " Say more for the next part."
  const DID_NOT_COMPLETE := "That request did not complete. Check Live Ninja before repeating an action."

  function Digits(n: nat): (s: string) {
    if n < 10 then [['0', '1', '2', '3', '4', '5', '6', '7', '8', '9'][n]] else Digits(n / 10) + Digits(n % 10)
  }

  function WaitingHint(n: nat): string { " " + Digits(n) + " more answers are waiting. Say more." }

  datatype View = View(text: string, more: bool, waiting: nat, earlier: bool)

  // The chat branch prefixes an answer to another request; viewResponse appends the next step.
  method ViewResponse(v: View) returns (text: string)
    ensures |v.text| <= CHUNK ==> |text| <= 600
    ensures v.text != "" ==> (if v.earlier then EARLIER else "") + v.text <= text
    ensures
      var said := if v.text == "" then DID_NOT_COMPLETE else (if v.earlier then EARLIER else "") + v.text;
      v.more ==> text == said + SAY_MORE
    ensures
      var said := if v.text == "" then DID_NOT_COMPLETE else (if v.earlier then EARLIER else "") + v.text;
      !v.more ==>
        text == if v.waiting > 0 && |said + WaitingHint(v.waiting)| <= 600 then said + WaitingHint(v.waiting) else said
  {
    hide WaitingHint;
    text := v.text;
    if v.earlier && text != "" { text := EARLIER + text; }
    if text == "" { text := DID_NOT_COMPLETE; }
    if v.more {
      text := text + SAY_MORE;
    } else if v.waiting > 0 {
      var hint := WaitingHint(v.waiting);
      if |text + hint| <= 600 { text := text + hint; }
    }
  }
}
