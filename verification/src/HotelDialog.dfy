// cmd/phone-trial-bridge/dialog.go: the bridge, not the model, decides which question is
// asked next and when the call must close.
module HotelDialog {
  import opened Prelude

  const QUESTIONS: nat := 4
  const MAX_NOTES: nat := 8
  const MAX_NOTE: nat := 240

  datatype Kind = Answer | NoAnswer | Hold | Withdraw

  // classifyReply's patterns, strings.Fields joined by single spaces, and strings.TrimSpace
  // are left open.
  datatype Words = Words(classify: string -> Kind, fields: string -> string, trim: string -> string)

  datatype Ending = AllAnswered | NoReply | Withdrawn

  // This turn's step: which question to ask, or how to close.
  datatype Say = Ask(question: nat, transcribed: bool) | AskAgain(question: nat) | Goodbye(why: Ending)

  // What the model is told: the questions already answered, the staff's replies, the step.
  datatype Prompt = Prompt(answered: nat, notes: seq<string>, say: Say)

  datatype Talk = Talk(next: nat, reasked: bool, closing: bool, notes: seq<string>)

  const NEW_TALK := Talk(0, false, false, [])

  function Unquoted(s: string): (r: string)
    ensures |r| == |s| && '\"' !in r
    ensures forall i :: 0 <= i < |s| ==> r[i] == if s[i] == '\"' then '\'' else s[i]
  {
    seq(|s|, i requires 0 <= i < |s| => if s[i] == '\"' then '\'' else s[i])
  }

  function Cut(s: string): string { if |s| > MAX_NOTE then s[..MAX_NOTE] + "..." else s }

  function Noted(w: Words, notes: seq<string>, text: string): seq<string> {
    var t := w.fields(text);
    if t == "" then notes
    else (if |notes| == MAX_NOTES then notes[1..] else notes) + [Unquoted(Cut(t))]
  }

  function Tell(t: Talk, say: Say): Prompt { Prompt(if t.next <= QUESTIONS then t.next else QUESTIONS, t.notes, say) }

  function Close(t: Talk, why: Ending): (Talk, Option<Prompt>) {
    (t.(closing := true), Some(Tell(t, Goodbye(why))))
  }

  function Unanswered(t: Talk): (Talk, Option<Prompt>) {
    if !t.reasked then (t.(reasked := true), Some(Tell(t, AskAgain(t.next)))) else Close(t, NoReply)
  }

  function Replied(w: Words, t: Talk, text: string, transcribed: bool): (Talk, Option<Prompt>) {
    if t.closing then (t, None)
    else
      var kind := if transcribed then w.classify(text) else Answer;
      var u := if transcribed then t.(notes := Noted(w, t.notes, text)) else t;
      match kind
      case Withdraw => Close(u, Withdrawn)
      case Hold => (u, None)
      case NoAnswer => Unanswered(u)
      case Answer =>
        var v := u.(next := u.next + 1, reasked := false);
        if v.next >= QUESTIONS then Close(v, AllAnswered) else (v, Some(Tell(v, Ask(v.next, transcribed))))
  }

  function Silent(t: Talk): (Talk, Option<Prompt>) { if t.closing then (t, None) else Unanswered(t) }

  function Opening(t: Talk): Prompt { Tell(t, Ask(0, true)) }

  // ----- What every dialog keeps -----

  ghost predicate GoodNotes(notes: seq<string>) {
    |notes| <= MAX_NOTES && forall i :: 0 <= i < |notes| ==> 0 < |notes[i]| <= MAX_NOTE + 3 && '\"' !in notes[i]
  }

  ghost predicate ValidTalk(t: Talk) {
    t.next <= QUESTIONS && (t.next == QUESTIONS ==> t.closing) && GoodNotes(t.notes)
  }

  // How many more turns the dialog can produce at most.
  function Left(t: Talk): int {
    if t.closing then 0 else 2 * (QUESTIONS - t.next) - if t.reasked then 1 else 0
  }

  lemma NotedIsGood(w: Words, notes: seq<string>, text: string)
    requires GoodNotes(notes)
    ensures GoodNotes(Noted(w, notes, text))
  {
    var r, kept := Noted(w, notes, text), if |notes| == MAX_NOTES then notes[1..] else notes;
    if w.fields(text) != "" {
      forall i | 0 <= i < |r|
        ensures 0 < |r[i]| <= MAX_NOTE + 3 && '\"' !in r[i]
      {
        if i < |kept| { assert r[i] == kept[i]; assert kept[i] in notes; }
      }
    }
  }

  // o is a fit next turn after t: it names an existing question that was not answered yet,
  // and strictly uses up what is left; no turn leaves everything as it was; closing is final.
  ghost predicate Progress(t: Talk, r: (Talk, Option<Prompt>)) {
    var (u, o) := r;
    && ValidTalk(u)
    && t.next <= u.next && (t.closing ==> u.closing && o.None?)
    && (o.Some? ==> 0 <= Left(u) < Left(t) && o.value.answered == u.next && o.value.notes == u.notes
                    && (o.value.say.Goodbye? <==> u.closing)
                    && (!o.value.say.Goodbye? ==> o.value.say.question == u.next < QUESTIONS))
    && (o.Some? && o.value.say.Ask? ==> u.next == t.next + 1)
    && (o.Some? && o.value.say.AskAgain? ==> u.next == t.next && !t.reasked && u.reasked)
    && (o.None? ==> Left(u) == Left(t) && u.next == t.next)
  }

  lemma EveryTurnMakesProgress(w: Words, t: Talk, text: string, transcribed: bool)
    requires ValidTalk(t)
    ensures Progress(t, Replied(w, t, text, transcribed)) && Progress(t, Silent(t))
  {
    NotedIsGood(w, t.notes, text);
  }

  // ----- What each turn is answered with -----

  // One turn of the staff: something transcribed, something that was not, or nothing.
  datatype Turn = Said(text: string) | Untranscribed | Quiet

  // A turn that was not transcribed counts as an answer, and silence as none.
  function KindOf(w: Words, turn: Turn): Kind {
    if turn.Said? then w.classify(turn.text) else if turn.Untranscribed? then Answer else NoAnswer
  }

  predicate Answers(w: Words, turn: Turn) { KindOf(w, turn) == Answer }

  predicate Withdraws(w: Words, turn: Turn) { KindOf(w, turn) == Withdraw }

  // The note kept of words n: cut at its length, with its double quotes made single.
  ghost predicate NoteOf(n: string, note: string) {
    && |note| == (if |n| > MAX_NOTE then MAX_NOTE + 3 else |n|) && (|n| > MAX_NOTE ==> note[MAX_NOTE..] == "...")
    && forall i :: 0 <= i < |n| && i < MAX_NOTE ==> note[i] == if n[i] == '\"' then '\'' else n[i]
  }

  // The notes after text was said: it is the newest, and the most recent ones before it are kept.
  ghost predicate NotesTaken(w: Words, before: seq<string>, text: string, after: seq<string>) {
    var n := w.fields(text);
    if n == "" then after == before
    else
      && |after| == (if |before| == MAX_NOTES then MAX_NOTES else |before| + 1)
      && NoteOf(n, after[|after| - 1]) && after[..|after| - 1] == before[|before| - (|after| - 1)..]
  }

  // What the dialog, asked so far as t, does with a turn, and what it says.
  ghost predicate FitsTurn(w: Words, t: Talk, turn: Turn, u: Talk, o: Option<Prompt>) {
    if t.closing then u == t && o.None?
    else
      && (if turn.Said? then NotesTaken(w, t.notes, turn.text, u.notes) else u.notes == t.notes)
      && (o.Some? ==> o.value.answered == u.next && o.value.notes == u.notes)
      && FitsKind(t, KindOf(w, turn), turn.Said?, u, if o.Some? then Some(o.value.say) else None)
  }

  ghost predicate FitsKind(t: Talk, kind: Kind, transcribed: bool, u: Talk, say: Option<Say>) {
    if kind == Withdraw then u.closing && u.next == t.next && say == Some(Goodbye(Withdrawn))
    else if kind == Hold then !u.closing && u.next == t.next && u.reasked == t.reasked && say.None?
    else if kind == Answer then
      && u.next == t.next + 1 && !u.reasked && (u.closing <==> u.next == QUESTIONS)
      && say == Some(if u.closing then Goodbye(AllAnswered) else Ask(u.next, transcribed))
    else
      && u.next == t.next && u.reasked && (u.closing <==> t.reasked)
      && say == Some(if u.closing then Goodbye(NoReply) else AskAgain(t.next))
  }

  // A withdrawal closes the dialog, a request to hold on is waited out, a first non-answer to a
  // question is asked again, a second closes, and an answer leads to the next question or, after
  // the last, closes.
  lemma EveryTurnHasItsReply(w: Words, t: Talk, text: string, transcribed: bool)
    requires ValidTalk(t)
    ensures var r := Replied(w, t, text, transcribed); FitsTurn(w, t, if transcribed then Said(text) else Untranscribed, r.0, r.1)
    ensures var r := Silent(t); FitsTurn(w, t, Quiet, r.0, r.1)
  {
    hide FitsTurn, Replied, Silent, NotesTaken, Noted;
    NotesAreTaken(w, t.notes, text);
    if transcribed { SaidFits(w, t, text); } else { UntranscribedFits(w, t, text); }
    QuietFits(w, t);
  }

  lemma SaidFits(w: Words, t: Talk, text: string)
    requires (t.closing || t.next < QUESTIONS) && NotesTaken(w, t.notes, text, Noted(w, t.notes, text))
    ensures var r := Replied(w, t, text, true); FitsTurn(w, t, Said(text), r.0, r.1)
  {
    hide Noted, NotesTaken, FitsKind, Replied;
    if t.closing { ClosedStays(w, t, text); } else { KindFits(w, t, text); }
  }

  lemma KindFits(w: Words, t: Talk, text: string)
    requires t.next < QUESTIONS && !t.closing
    ensures
      var r := Replied(w, t, text, true);
      && FitsKind(t, w.classify(text), true, r.0, if r.1.Some? then Some(r.1.value.say) else None)
      && r.0.notes == Noted(w, t.notes, text)
      && (r.1.Some? ==> r.1.value.answered == r.0.next && r.1.value.notes == r.0.notes)
  {
    hide Noted;
  }

  lemma ClosedStays(w: Words, t: Talk, text: string)
    requires t.closing
    ensures Replied(w, t, text, true) == (t, None)
  {
  }

  lemma UntranscribedFits(w: Words, t: Talk, text: string)
    requires ValidTalk(t)
    ensures var r := Replied(w, t, text, false); FitsTurn(w, t, Untranscribed, r.0, r.1)
  {
  }

  lemma QuietFits(w: Words, t: Talk)
    requires ValidTalk(t)
    ensures var r := Silent(t); FitsTurn(w, t, Quiet, r.0, r.1)
  {
  }

  lemma NotesAreTaken(w: Words, notes: seq<string>, text: string)
    requires |notes| <= MAX_NOTES
    ensures NotesTaken(w, notes, text, Noted(w, notes, text))
  {
    var n := w.fields(text);
    if n != "" { assert NoteOf(n, Unquoted(Cut(n))); }
  }

  // ----- Over whole dialogs -----

  function TurnReply(w: Words, t: Talk, turn: Turn): (Talk, Option<Prompt>) {
    match turn
    case Said(text) => Replied(w, t, text, true)
    case Untranscribed => Replied(w, t, "", false)
    case Quiet => Silent(t)
  }

  // How far the dialog is after turns.
  function After(w: Words, turns: seq<Turn>): Talk {
    if turns == [] then NEW_TALK else TurnReply(w, After(w, turns[..|turns| - 1]), turns[|turns| - 1]).0
  }

  // How many of turns were answers, before the dialog closed.
  function Answered(w: Words, turns: seq<Turn>): nat {
    if turns == [] then 0
    else
      var before := turns[..|turns| - 1];
      Answered(w, before) + if !After(w, before).closing && Answers(w, turns[|turns| - 1]) then 1 else 0
  }

  lemma {:induction false} AnswersAreCounted(w: Words, turns: seq<Turn>)
    ensures ValidTalk(After(w, turns)) && After(w, turns).next == Answered(w, turns)
  {
    hide Replied, Silent, NotesTaken;
    if turns != [] {
      var before, last := turns[..|turns| - 1], turns[|turns| - 1];
      AnswersAreCounted(w, before);
      TurnFits(w, After(w, before), last);
    }
  }

  lemma TurnFits(w: Words, t: Talk, turn: Turn)
    requires ValidTalk(t)
    ensures var r := TurnReply(w, t, turn); FitsTurn(w, t, turn, r.0, r.1) && ValidTalk(r.0)
  {
    hide Replied, Silent, FitsTurn;
    if turn.Said? {
      EveryTurnHasItsReply(w, t, turn.text, true);
      EveryTurnMakesProgress(w, t, turn.text, true);
    } else {
      EveryTurnHasItsReply(w, t, "", false);
      EveryTurnMakesProgress(w, t, "", false);
    }
  }

  // Over every dialog: the question that waits for an answer is the one after as many answers as
  // there were; and once the staff withdrew, at turn i, nothing more is said, so no question asked.
  lemma WithdrawalIsFinal(w: Words, turns: seq<Turn>, i: nat, j: nat)
    requires i < j < |turns| && Withdraws(w, turns[i])
    ensures After(w, turns[..j]).next == Answered(w, turns[..j])
    ensures TurnReply(w, After(w, turns[..j]), turns[j]).1.None?
  {
    hide Replied, Silent, NotesTaken;
    AnswersAreCounted(w, turns[..j]);
    ClosedBy(w, turns, i, j);
    TurnFits(w, After(w, turns[..j]), turns[j]);
  }

  lemma {:induction false} ClosedBy(w: Words, turns: seq<Turn>, i: nat, j: nat)
    requires i < j <= |turns| && Withdraws(w, turns[i])
    ensures After(w, turns[..j]).closing
  {
    hide Replied, Silent, NotesTaken;
    assert turns[..j][..j - 1] == turns[..j - 1];
    AnswersAreCounted(w, turns[..j - 1]);
    TurnFits(w, After(w, turns[..j - 1]), turns[j - 1]);
    if i < j - 1 { ClosedBy(w, turns, i, j - 1); }
  }

  // ----- The dialog object -----

  class Dialog {
    const words: Words
    var next: nat
    var reasked: bool
    var closing: bool
    var notes: seq<string>

    ghost function State(): Talk
      reads this
    {
      Talk(next, reasked, closing, notes)
    }

    constructor (w: Words)
      ensures words == w && State() == NEW_TALK
    {
      words, next, reasked, closing, notes := w, 0, false, false, [];
    }

    method Instructions(say: Say) returns (p: Prompt)
      ensures p == Tell(State(), say)
    {
      p := Prompt(if next <= QUESTIONS then next else QUESTIONS, notes, say);
    }

    method Note(text: string)
      modifies this`notes
      ensures notes == Noted(words, old(notes), text)
    {
      var t := words.fields(text);
      if t == "" { return; }
      if |t| > MAX_NOTE { t := t[..MAX_NOTE] + "..."; }
      t := Unquoted(t);
      if |notes| == MAX_NOTES { notes := notes[1..]; }
      notes := notes + [t];
    }

    method Shut(why: Ending) returns (p: Prompt)
      modifies this`closing
      ensures (State(), Some(p)) == Close(old(State()), why)
    {
      closing := true;
      p := Instructions(Goodbye(why));
    }

    method AskOnceMore() returns (p: Prompt)
      modifies this
      ensures (State(), Some(p)) == Unanswered(old(State()))
    {
      if !reasked {
        reasked := true;
        p := Instructions(AskAgain(next));
      } else {
        p := Shut(NoReply);
      }
    }

    method Reply(text: string, transcribed: bool) returns (o: Option<Prompt>)
      modifies this
      ensures (State(), o) == Replied(words, old(State()), text, transcribed)
      ensures ValidTalk(old(State())) ==>
                && Progress(old(State()), (State(), o))
                && FitsTurn(words, old(State()), if transcribed then Said(text) else Untranscribed, State(), o)
    {
      hide Progress, FitsTurn;
      ghost var was := State();
      if ValidTalk(was) {
        EveryTurnMakesProgress(words, was, text, transcribed);
        EveryTurnHasItsReply(words, was, text, transcribed);
      }
      if closing { return None; }
      var kind := Answer;
      if transcribed {
        kind := words.classify(text);
        Note(text);
      }
      var p;
      match kind {
        case Withdraw => p := Shut(Withdrawn);
        case Hold => return None;
        case NoAnswer => p := AskOnceMore();
        case Answer =>
          next := next + 1;
          reasked := false;
          if next >= QUESTIONS {
            p := Shut(AllAnswered);
          } else {
            p := Instructions(Ask(next, transcribed));
          }
      }
      return Some(p);
    }

    method Silence() returns (o: Option<Prompt>)
      modifies this
      ensures (State(), o) == Silent(old(State()))
      ensures ValidTalk(old(State())) ==>
                Progress(old(State()), (State(), o)) && FitsTurn(words, old(State()), Quiet, State(), o)
    {
      hide Progress, FitsTurn;
      ghost var was := State();
      if ValidTalk(was) {
        EveryTurnMakesProgress(words, was, "", false);
        EveryTurnHasItsReply(words, was, "", false);
      }
      if closing { return None; }
      var p := AskOnceMore();
      return Some(p);
    }
  }
}
