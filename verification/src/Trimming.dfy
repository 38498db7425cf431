// Context limits: trimHistory (service.go) and BoundMessages (speech.go).
module Trimming {
  import opened Conversation

  function Count(h: seq<Exchange>): nat {
    if h == [] then 0 else |h[0].messages| + Count(h[1..])
  }

  predicate Fits(size: seq<Exchange> -> nat, h: seq<Exchange>) {
    Count(h) <= MAX_MESSAGES && size(h) <= MAX_CONTEXT_BYTES
  }

  // An exchange reduced to its request and its final answer.
  function Cut(x: Exchange): (y: Exchange)
    requires |x.messages| > 2
    ensures |y.messages| == 2 && y.receipt == x.receipt
  {
    x.(messages := [x.messages[0], x.messages[|x.messages| - 1]])
  }

  function Trimmed(size: seq<Exchange> -> nat, h: seq<Exchange>): seq<Exchange>
    decreases |h|, if h == [] then 0 else |h[0].messages|
  {
    if h == [] || Fits(size, h) then h
    else if |h| > 1 then Trimmed(size, h[1..])
    else if |h[0].messages| > 2 then Trimmed(size, [Cut(h[0])])
    else []
  }

  method TrimHistory(size: seq<Exchange> -> nat, history: seq<Exchange>) returns (kept: seq<Exchange>)
    ensures kept == Trimmed(size, history)
  {
    kept := history;
    while |kept| > 0
      invariant Trimmed(size, kept) == Trimmed(size, history)
      decreases |kept|, if kept == [] then 0 else |kept[0].messages|
    {
      var count := 0;
      for i := 0 to |kept|
        invariant count + Count(kept[i..]) == Count(kept)
      {
        assert kept[i..][1..] == kept[i + 1..];
        count := count + |kept[i].messages|;
      }
      if count <= MAX_MESSAGES && size(kept) <= MAX_CONTEXT_BYTES {
        return;
      }
      if |kept| == 1 {
        if |kept[0].messages| > 2 {
          assert kept == [kept[0]];
          kept := [Cut(kept[0])];
          continue;
        }
        return [];
      }
      kept := kept[1..];
    }
  }

  // No shorter suffix is kept while a longer one fits.
  ghost predicate LongestFitting(size: seq<Exchange> -> nat, h: seq<Exchange>, i: nat) {
    i < |h| && Fits(size, h[i..]) && forall j :: 0 <= j < i ==> !Fits(size, h[j..])
  }

  function LastResort(size: seq<Exchange> -> nat, h: seq<Exchange>): seq<Exchange> {
    if h == [] then []
    else
      var last := h[|h| - 1];
      if |last.messages| > 2 && Fits(size, [Cut(last)]) then [Cut(last)] else []
  }

  // What is kept is the longest fitting suffix of whole exchanges; when no nonempty
  // suffix fits, the last exchange's request and answer if those fit; else nothing.
  lemma {:induction false} TrimmedIsLongest(size: seq<Exchange> -> nat, h: seq<Exchange>)
    ensures forall i: nat :: LongestFitting(size, h, i) ==> Trimmed(size, h) == h[i..]
    ensures (forall i :: 0 <= i < |h| ==> !Fits(size, h[i..])) ==> Trimmed(size, h) == LastResort(size, h)
    decreases |h|
  {
    if h != [] {
      assert h[0..] == h;
      if Fits(size, h) {
        assert Fits(size, h[0..]);
      } else if |h| > 1 {
        TrimmedIsLongest(size, h[1..]);
        assert forall i :: 0 <= i < |h[1..]| ==> h[1..][i..] == h[i + 1..];
        forall i: nat | LongestFitting(size, h, i)
          ensures Trimmed(size, h) == h[i..]
        {
          assert LongestFitting(size, h[1..], i - 1);
        }
      }
    }
  }

  // y is exchange x, whole or cut to its first and final message.
  predicate KeptOf(y: Exchange, x: Exchange) { y == x || (|x.messages| > 2 && y == Cut(x)) }

  // Nothing new appears in a trimmed history, and an answer is never re-attributed.
  lemma {:induction false} TrimmedKeepsExchanges(size: seq<Exchange> -> nat, h: seq<Exchange>, i: nat)
    requires i < |Trimmed(size, h)|
    ensures exists j :: 0 <= j < |h| && KeptOf(Trimmed(size, h)[i], h[j])
    decreases |h|, if h == [] then 0 else |h[0].messages|
  {
    if h == [] || Fits(size, h) {
      assert KeptOf(Trimmed(size, h)[i], h[i]);
    } else if |h| > 1 {
      TrimmedKeepsExchanges(size, h[1..], i);
      var j :| 0 <= j < |h[1..]| && KeptOf(Trimmed(size, h)[i], h[1..][j]);
      assert KeptOf(Trimmed(size, h)[i], h[j + 1]);
    } else if |h[0].messages| > 2 {
      TrimmedKeepsExchanges(size, [Cut(h[0])], i);
      assert KeptOf(Trimmed(size, h)[i], h[0]);
    }
  }

  // ----- Tool results are never separated from the call they answer -----

  ghost predicate Answered(ms: seq<Message>, j: nat) {
    j < |ms| && exists i :: 0 <= i < j && ms[i].role == Assistant && ms[j].callId in ms[i].calls
  }

  ghost predicate Paired(ms: seq<Message>) {
    forall j :: 0 <= j < |ms| && ms[j].role == ToolResult ==> Answered(ms, j)
  }

  // A finished exchange pairs its own tool results, opens with a request and closes with an answer.
  ghost predicate Whole(x: Exchange) {
    && Paired(x.messages)
    && (|x.messages| > 0 ==> x.messages[0].role == User && x.messages[|x.messages| - 1].role == Assistant)
  }

  function Flatten(h: seq<Exchange>): seq<Message> {
    if h == [] then [] else h[0].messages + Flatten(h[1..])
  }

  lemma PairedConcat(a: seq<Message>, b: seq<Message>)
    requires Paired(a) && Paired(b)
    ensures Paired(a + b)
  {
    var ms := a + b;
    forall j | 0 <= j < |ms| && ms[j].role == ToolResult
      ensures Answered(ms, j)
    {
      if j < |a| {
        assert Answered(a, j);
        var i :| 0 <= i < j && a[i].role == Assistant && a[j].callId in a[i].calls;
        assert ms[i] == a[i];
      } else {
        assert Answered(b, j - |a|);
        var i :| 0 <= i < j - |a| && b[i].role == Assistant && b[j - |a|].callId in b[i].calls;
        assert ms[|a| + i] == b[i];
      }
    }
  }

  lemma {:induction false} WholeHistoryIsPaired(h: seq<Exchange>)
    requires forall i :: 0 <= i < |h| ==> Whole(h[i])
    ensures Paired(Flatten(h))
  {
    if h != [] {
      assert Whole(h[0]);
      WholeHistoryIsPaired(h[1..]);
      PairedConcat(h[0].messages, Flatten(h[1..]));
    }
  }

  lemma {:induction false} TrimmingNeverOrphansToolResults(size: seq<Exchange> -> nat, h: seq<Exchange>)
    requires forall i :: 0 <= i < |h| ==> Whole(h[i])
    ensures Paired(Flatten(Trimmed(size, h)))
    decreases |h|, if h == [] then 0 else |h[0].messages|
  {
    if h == [] || Fits(size, h) {
      WholeHistoryIsPaired(h);
    } else if |h| > 1 {
      TrimmingNeverOrphansToolResults(size, h[1..]);
    } else if |h[0].messages| > 2 {
      assert Whole(h[0]);
      TrimmingNeverOrphansToolResults(size, [Cut(h[0])]);
    }
  }

  // ----- BoundMessages -----

  datatype Bound = Kept(messages: seq<Message>) | TurnTooLarge | Envelope

  predicate FitsMessages(size: seq<Message> -> nat, ms: seq<Message>) {
    |ms| <= MAX_MESSAGES && size(ms) <= MAX_CONTEXT_BYTES
  }

  // A place where context may be cut: the whole input, or a suffix that opens with a user message.
  ghost predicate Candidate(ms: seq<Message>, i: nat) {
    i < |ms| && (i == 0 || ms[i].role == User)
  }

  method BoundMessages(size: seq<Message> -> nat, messages: seq<Message>) returns (b: Bound)
    ensures b.Kept? <==> exists i: nat :: Candidate(messages, i) && FitsMessages(size, messages[i..])
    ensures b.Kept? ==> exists i: nat ::
              && Candidate(messages, i) && b.messages == messages[i..] && FitsMessages(size, b.messages)
              && forall j :: 0 <= j < i && Candidate(messages, j) ==> !FitsMessages(size, messages[j..])
    ensures b.Envelope? <==> messages == []
  {
    var rest := messages;
    ghost var at := 0;
    while |rest| > 0
      invariant 0 <= at <= |messages| && rest == messages[at..]
      invariant at < |messages| ==> Candidate(messages, at)
      invariant at == |messages| ==> messages == []
      invariant forall j :: 0 <= j < at && Candidate(messages, j) ==> !FitsMessages(size, messages[j..])
      decreases |rest|
    {
      if FitsMessages(size, rest) {
        assert Candidate(messages, at);
        return Kept(rest);
      }
      var next := -1;
      var i := 1;
      while i < |rest| && next < 0
        invariant 1 <= i <= |rest|
        invariant next < 0 ==> forall j :: 1 <= j < i ==> rest[j].role != User
        invariant next >= 0 ==> 1 <= next < |rest| && rest[next].role == User
                                && forall j :: 1 <= j < next ==> rest[j].role != User
        decreases |rest| - i, next < 0
      {
        if rest[i].role == User { next := i; } else { i := i + 1; }
      }
      forall j | at < j < |messages| && messages[j].role == User
        ensures next >= 0 && at + next <= j
      {
        assert rest[j - at] == messages[j];
      }
      if next < 0 {
        assert forall j: nat :: Candidate(messages, j) && j > at ==> messages[j].role == User;
        return TurnTooLarge;
      }
      rest := rest[next..];
      at := at + next;
    }
    b := Envelope;
  }

  // A tool result never answers a call made before the request it belongs to.
  ghost predicate CallsStayInsideRequests(ms: seq<Message>) {
    forall i, j, k :: 0 <= i < k <= j < |ms| && ms[k].role == User ==>
      !(ms[j].role == ToolResult && ms[i].role == Assistant && ms[j].callId in ms[i].calls)
  }

  lemma CuttingAtARequestKeepsPairs(ms: seq<Message>, i: nat)
    requires Candidate(ms, i) && Paired(ms) && CallsStayInsideRequests(ms)
    ensures Paired(ms[i..])
  {
    var rest := ms[i..];
    forall j | 0 <= j < |rest| && rest[j].role == ToolResult
      ensures Answered(rest, j)
    {
      assert Answered(ms, i + j);
      var c :| 0 <= c < i + j && ms[c].role == Assistant && ms[i + j].callId in ms[c].calls;
      assert c >= i;
      assert rest[c - i] == ms[c];
    }
  }
}
