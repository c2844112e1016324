/** The polling loop of `main` in `homework.py`: each cycle validates one
    fetched answer, formats its newest homework record and notifies the user
    only when the notification differs from the last one sent; the first error
    is reported to the user once and ends the loop. Fetching and the chat
    transport are outside the model: each cycle is given the fetched answer
    (or the error fetching raised) and whether the chat accepted the message. */
module Bot {
  import opened Wrappers
  import opened Json
  import opened Homework

  /** What the outside world contributes to one cycle: the result of fetching
      the answer, and whether the chat transport accepts the message that the
      cycle sends, if it sends one. */
  datatype Poll = Poll(fetch: Result<Json, Error>, accepted: bool)

  /** The text before the error in the message that reports a failed cycle. */
  const FailurePrefix := "Сбой в работе программы: "

  /** The message that reports a failed cycle. */
  function FailureText(e: Error): (text: string)
    ensures FailurePrefix <= text
    ensures text[|FailurePrefix|..] == ErrorText(e)
  {
    FailurePrefix + ErrorText(e)
  }

  /** A failure report never reads like a status notification. */
  lemma FailureTextIsNotStatus(e: Error, m: string)
    requires StatusPrefix <= m
    ensures FailureText(e) != m
  {
    assert FailureText(e)[0] == 'С' && m[0] == 'И';
  }

  /** The body of the `try` of one cycle: the error it raises, or the
      notification it formats, or `None` when the list of homeworks is empty.
      Only the first homework of the list is formatted. */
  function Attempt(fetch: Result<Json, Error>): (r: Result<Option<string>, Error>)
    ensures fetch.Failure? ==> r == Failure(fetch.error)
    ensures r == Success(None) <==> fetch.Success? && CheckResponse(fetch.value) == Success([])
    ensures r.Success? ==> fetch.Success? && WellShaped(fetch.value)
    ensures r.Success? && r.value.Some? ==>
              StatusPrefix <= r.value.value &&
              ParseStatus(fetch.value.fields[HomeworksKey].items[0]) == Success(r.value.value)
    ensures fetch.Success? && CheckResponse(fetch.value).Failure? ==>
              r == Failure(CheckResponse(fetch.value).error)
    ensures fetch.Success? && WellShaped(fetch.value) && |fetch.value.fields[HomeworksKey].items| > 0 ==>
              var first := ParseStatus(fetch.value.fields[HomeworksKey].items[0]);
              (first.Success? ==> r == Success(Some(first.value))) &&
              (first.Failure? ==> r == Failure(first.error))
  {
    match fetch
    case Failure(e) => Failure(e)
    case Success(response) =>
      match CheckResponse(response)
      case Failure(e) => Failure(e)
      case Success(homeworks) =>
        if |homeworks| == 0 then Success(None)
        else
          match ParseStatus(homeworks[0])
          case Failure(e) => Failure(e)
          case Success(message) => Success(Some(message))
  }

  /** Two answers whose homework lists start with the same record give the
      same cycle outcome: the rest of the list is never looked at. */
  lemma OnlyFirstHomeworkMatters(a: Json, b: Json)
    requires WellShaped(a) && WellShaped(b)
    requires |a.fields[HomeworksKey].items| > 0 && |b.fields[HomeworksKey].items| > 0
    requires a.fields[HomeworksKey].items[0] == b.fields[HomeworksKey].items[0]
    ensures Attempt(Success(a)) == Attempt(Success(b))
  {
  }

  // ------------------------------------------------------- specification

  /** The state of the loop: the last notification sent (`last_status`), the
      messages handed to the chat in order, those the chat delivered, and the
      error that ended the loop, if one did. */
  datatype Loop = Loop(lastStatus: Option<string>, sent: seq<string>, delivered: seq<string>, failure: Option<Error>)

  /** The loop as `main` enters it. */
  const Initial := Loop(None, [], [], None)

  /** `send_message`: the message is handed to the chat; a delivery failure is
      swallowed and only shows in what was delivered. */
  function Send(s: Loop, text: string, accepted: bool): (t: Loop)
    ensures t.sent == s.sent + [text]
    ensures t.delivered == if accepted then s.delivered + [text] else s.delivered
    ensures t.lastStatus == s.lastStatus && t.failure == s.failure
  {
    s.(sent := s.sent + [text], delivered := if accepted then s.delivered + [text] else s.delivered)
  }

  /** One cycle of `main`. A loop that has ended stays as it is. A cycle
      hands at most one message to the chat, and a cycle that sends nothing
      changes nothing; `last_status` changes only to the notification just
      sent, and the loop ends only after sending the report of its error. */
  function Step(s: Loop, p: Poll): (t: Loop)
    ensures s.failure.Some? ==> t == s
    ensures t.sent == s.sent || (|t.sent| == |s.sent| + 1 && t.sent[..|s.sent|] == s.sent)
    ensures t.sent == s.sent ==> t == s
    ensures t.lastStatus != s.lastStatus ==>
              t.lastStatus.Some? && t.sent == s.sent + [t.lastStatus.value] && t.failure.None?
    ensures t.failure != s.failure ==>
              s.failure.None? && t.failure.Some? && t.sent == s.sent + [FailureText(t.failure.value)] &&
              t.lastStatus == s.lastStatus
  {
    if s.failure.Some? then s
    else
      match Attempt(p.fetch)
      case Failure(e) => Send(s, FailureText(e), p.accepted).(failure := Some(e))
      case Success(None) => s
      case Success(Some(message)) =>
        if s.lastStatus == Some(message) then s
        else Send(s, message, p.accepted).(lastStatus := Some(message))
  }

  /** The loop after the cycles `polls`, in order: the messages sent so far
      are kept, at most one is added per cycle, and a loop that has ended
      stays as it is. */
  function Run(s: Loop, polls: seq<Poll>): (t: Loop)
    ensures s.sent <= t.sent && |t.sent| <= |s.sent| + |polls|
    ensures s.failure.Some? ==> t == s
    decreases |polls|
  {
    if polls == [] then s else Run(Step(s, polls[0]), polls[1..])
  }

  /** Running one more cycle is one more step. */
  lemma {:induction false} RunSnoc(s: Loop, polls: seq<Poll>, p: Poll)
    ensures Run(s, polls + [p]) == Step(Run(s, polls), p)
    decreases |polls|
  {
    if polls == [] {
      assert polls + [p] == [p];
    } else {
      assert (polls + [p])[1..] == polls[1..] + [p];
      RunSnoc(Step(s, polls[0]), polls[1..], p);
    }
  }

  /** After a failure nothing more happens: no cycle runs and nothing is sent. */
  lemma RunAfterFailure(s: Loop, polls: seq<Poll>)
    requires s.failure.Some?
    ensures Run(s, polls) == s
  {
  }

  // ------------------------------------------------------- single cycles

  /** An empty list of homeworks sends nothing, raises nothing and keeps
      `last_status`. */
  lemma EmptyListChangesNothing(s: Loop, p: Poll)
    requires p.fetch.Success? && CheckResponse(p.fetch.value) == Success([])
    ensures Step(s, p) == s
  {
  }

  /** A notification that differs from `last_status` is sent and becomes the
      new `last_status`, whether or not the chat delivers it. */
  lemma ChangedMessageIsSent(s: Loop, p: Poll, message: string)
    requires s.failure.None? && Attempt(p.fetch) == Success(Some(message))
    requires s.lastStatus != Some(message)
    ensures Step(s, p).sent == s.sent + [message]
    ensures Step(s, p).lastStatus == Some(message) && Step(s, p).failure.None?
  {
  }

  /** The first notification is always sent, since `last_status` starts as `None`. */
  lemma FirstMessageIsSent(p: Poll, message: string)
    requires Attempt(p.fetch) == Success(Some(message))
    ensures Step(Initial, p).sent == [message] && Step(Initial, p).lastStatus == Some(message)
  {
  }

  /** Two consecutive cycles formatting the same notification send it at most
      once, and exactly once when it differs from `last_status`. */
  lemma RepeatedMessageIsSentOnce(s: Loop, p1: Poll, p2: Poll, message: string)
    requires s.failure.None?
    requires Attempt(p1.fetch) == Success(Some(message)) && Attempt(p2.fetch) == Success(Some(message))
    ensures Run(s, [p1, p2]).sent == s.sent + (if s.lastStatus == Some(message) then [] else [message])
    ensures Run(s, [p1, p2]).lastStatus == Some(message) && Run(s, [p1, p2]).failure.None?
  {
    var s1 := Step(s, p1);
    assert [p1, p2][1..] == [p2];
    assert Run(s, [p1, p2]) == Run(s1, [p2]);
    assert Run(s1, [p2]) == Run(Step(s1, p2), []);
  }

  /** A failing cycle sends exactly one failure report and ends the loop: the
      cycles after it run no more and send nothing. */
  lemma FailureEndsLoop(s: Loop, p: Poll, rest: seq<Poll>, e: Error)
    requires s.failure.None? && Attempt(p.fetch) == Failure(e)
    ensures Run(s, [p] + rest).sent == s.sent + [FailureText(e)]
    ensures Run(s, [p] + rest).failure == Some(e)
    ensures Run(s, [p] + rest).lastStatus == s.lastStatus
  {
  }

  // ---------------------------------------------------------- whole runs

  /** Whether the chat delivers a message never changes what the loop does
      next: two runs over the same fetched answers send the same messages, keep
      the same `last_status` and end the same way. */
  lemma {:induction false} DeliveryIsInvisible(s1: Loop, s2: Loop, ps: seq<Poll>, qs: seq<Poll>)
    requires s1.lastStatus == s2.lastStatus && s1.sent == s2.sent && s1.failure == s2.failure
    requires |ps| == |qs| && forall i :: 0 <= i < |ps| ==> ps[i].fetch == qs[i].fetch
    ensures Run(s1, ps).lastStatus == Run(s2, qs).lastStatus
    ensures Run(s1, ps).sent == Run(s2, qs).sent
    ensures Run(s1, ps).failure == Run(s2, qs).failure
    decreases |ps|
  {
    if ps != [] {
      assert ps[0].fetch == qs[0].fetch;
      DeliveryIsInvisible(Step(s1, ps[0]), Step(s2, qs[0]), ps[1..], qs[1..]);
    }
  }

  /** No message is handed to the chat twice in a row. (What the chat
      receives, `delivered`, can repeat: a message whose delivery failed is
      still recorded as `last_status`.) */
  predicate NoRepeats(ms: seq<string>)
  {
    forall i :: 0 < i < |ms| ==> ms[i - 1] != ms[i]
  }

  /** What every reachable state satisfies: while the loop runs,
      `last_status` is the last message sent, and it is a status notification. */
  predicate Reachable(s: Loop)
  {
    NoRepeats(s.sent) &&
    (s.failure.None? ==>
      (s.lastStatus.None? <==> s.sent == []) &&
      (s.lastStatus.Some? ==> s.lastStatus.value == s.sent[|s.sent| - 1] && StatusPrefix <= s.lastStatus.value))
  }

  lemma StepKeepsReachable(s: Loop, p: Poll)
    requires Reachable(s)
    ensures Reachable(Step(s, p))
  {
    if s.failure.None? {
      match Attempt(p.fetch)
      case Failure(e) =>
        if s.lastStatus.Some? {
          FailureTextIsNotStatus(e, s.lastStatus.value);
        }
      case Success(_) =>
    }
  }

  lemma {:induction false} RunKeepsReachable(s: Loop, polls: seq<Poll>)
    requires Reachable(s)
    ensures Reachable(Run(s, polls))
    decreases |polls|
  {
    if polls != [] {
      StepKeepsReachable(s, polls[0]);
      RunKeepsReachable(Step(s, polls[0]), polls[1..]);
    }
  }

  /** However the cycles go, `send_message` is never called twice in a row
      with the same text. */
  lemma NeverTheSameMessageTwiceInARow(polls: seq<Poll>)
    ensures NoRepeats(Run(Initial, polls).sent)
  {
    RunKeepsReachable(Initial, polls);
  }

  /** The notifications the cycles format, in order (cycles that find no
      homework or fail contribute none). */
  function Formatted(polls: seq<Poll>): seq<string>
    decreases |polls|
  {
    if polls == [] then []
    else
      var p := polls[|polls| - 1];
      Formatted(polls[..|polls| - 1]) +
        match Attempt(p.fetch) case Success(Some(m)) => [m] case _ => []
  }

  /** Reference definition of deduplication: `ms` with every message dropped
      that equals the one just before it. */
  function Changes(ms: seq<string>): (r: seq<string>)
    decreases |ms|
  {
    if ms == [] then []
    else
      Changes(ms[..|ms| - 1]) +
        if |ms| > 1 && ms[|ms| - 2] == ms[|ms| - 1] then [] else [ms[|ms| - 1]]
  }

  /** Over cycles that all succeed, the loop sends exactly the formatted
      notifications with consecutive repeats dropped, and `last_status` is the
      last notification formatted. */
  lemma {:induction false} RunSendsChanges(polls: seq<Poll>)
    requires AllSucceed(polls)
    ensures Run(Initial, polls).failure.None?
    ensures Run(Initial, polls).sent == Changes(Formatted(polls))
    ensures Run(Initial, polls).lastStatus ==
              if Formatted(polls) == [] then None else Some(Formatted(polls)[|Formatted(polls)| - 1])
    decreases |polls|
  {
    if polls != [] {
      var init, p := polls[..|polls| - 1], polls[|polls| - 1];
      SplitLast(polls);
      AllSucceedPrefix(polls, |polls| - 1);
      assert Attempt(p.fetch).Success?;
      RunSendsChanges(init);
      RunSnoc(Initial, init, p);
      var f := Formatted(init);
      match Attempt(p.fetch)
      case Success(None) =>
        assert Formatted(polls) == f;
      case Success(Some(m)) =>
        assert Formatted(polls) == f + [m];
        ChangesSnoc(f, m);
    }
  }

  /** Appending a message adds it to the deduplicated list unless it repeats
      the previous one. */
  lemma ChangesSnoc(ms: seq<string>, m: string)
    ensures Changes(ms + [m]) == Changes(ms) + if ms != [] && ms[|ms| - 1] == m then [] else [m]
  {
    assert (ms + [m])[..|ms|] == ms;
  }

  /** Every cycle of `polls` gets through its `try` body without raising. */
  predicate AllSucceed(polls: seq<Poll>)
  {
    forall i :: 0 <= i < |polls| ==> Attempt(polls[i].fetch).Success?
  }

  lemma AllSucceedPrefix(polls: seq<Poll>, k: nat)
    requires k <= |polls| && forall i :: 0 <= i < k ==> Attempt(polls[i].fetch).Success?
    ensures AllSucceed(polls[..k])
  {
  }

  /** A non-empty sequence is its part before the last element followed by that element. */
  lemma SplitLast<T>(s: seq<T>)
    requires |s| > 0
    ensures s == s[..|s| - 1] + [s[|s| - 1]]
  {
  }

  /** The cycles `polls` up to the first failing one, which is cycle `k`,
      leave as a record the deduplicated notifications of the cycles before it
      followed by the one report of that failure. */
  lemma RunFailsAt(polls: seq<Poll>, k: nat, e: Error)
    requires k < |polls| && Attempt(polls[k].fetch) == Failure(e)
    requires forall i :: 0 <= i < k ==> Attempt(polls[i].fetch).Success?
    ensures Run(Initial, polls).sent == Changes(Formatted(polls[..k])) + [FailureText(e)]
    ensures Run(Initial, polls).failure == Some(e)
  {
    var before, p, after := polls[..k], polls[k], polls[k + 1..];
    AllSucceedPrefix(polls, k);
    RunSendsChanges(before);
    var mid, rest := Run(Initial, before), [p] + after;
    SplitAt(polls, k);
    RunSplit(Initial, before, rest);
    assert Run(Initial, polls) == Run(mid, rest);
    FailureEndsLoop(mid, p, after, e);
  }

  /** A sequence is its part before index `k`, its element at `k` and its part after. */
  lemma SplitAt<T>(s: seq<T>, k: nat)
    requires k < |s|
    ensures s == s[..k] + ([s[k]] + s[k + 1..])
  {
  }

  /** Running two batches of cycles is running their concatenation. */
  lemma {:induction false} RunSplit(s: Loop, ps: seq<Poll>, qs: seq<Poll>)
    ensures Run(s, ps + qs) == Run(Run(s, ps), qs)
    decreases |ps|
  {
    if ps == [] {
      assert ps + qs == qs;
    } else {
      assert (ps + qs)[1..] == ps[1..] + qs;
      RunSplit(Step(s, ps[0]), ps[1..], qs);
    }
  }

  /** An answer holding one homework record with the given name and status. */
  function Answer(name: string, status: string, date: Json): Json
  {
    JObject(map[HomeworksKey := JArray([JObject(map[NameKey := JString(name), StatusKey := JString(status)])]),
                CurrentDateKey := date])
  }

  /** A homework that moves from review to approval between two cycles gives
      two notifications, each with its own verdict, whatever the chat does
      with them. */
  lemma ReviewingThenApproved(name: string, date1: Json, date2: Json, ok1: bool, ok2: bool)
    ensures Run(Initial, [Poll(Success(Answer(name, "reviewing", date1)), ok1),
                          Poll(Success(Answer(name, "approved", date2)), ok2)]).sent ==
            [StatusMessage(name, Verdicts["reviewing"]), StatusMessage(name, Verdicts["approved"])]
  {
    var p1, p2 := Poll(Success(Answer(name, "reviewing", date1)), ok1), Poll(Success(Answer(name, "approved", date2)), ok2);
    var m1, m2 := StatusMessage(name, Verdicts["reviewing"]), StatusMessage(name, Verdicts["approved"]);
    assert Attempt(p1.fetch) == Success(Some(m1));
    assert Attempt(p2.fetch) == Success(Some(m2));
    DistinctStatusesDistinctMessages(name, "reviewing", "approved");
    var s1 := Step(Initial, p1);
    assert [p1, p2][1..] == [p2];
    assert Run(Initial, [p1, p2]) == Run(s1, [p2]);
    assert Run(s1, [p2]) == Run(Step(s1, p2), []);
  }

  // ---------------------------------------------------------- imperative

  /** The running bot: the state `main` keeps between cycles. */
  class Poller {
    var lastStatus: Option<string>
    var sent: seq<string>
    var delivered: seq<string>
    var failure: Option<Error>

    function State(): Loop
      reads this
    {
      Loop(lastStatus, sent, delivered, failure)
    }

    constructor ()
      ensures State() == Initial
    {
      lastStatus, sent, delivered, failure := None, [], [], None;
    }

    /** `send_message`. */
    method Notify(text: string, ok: bool)
      modifies this
      ensures State() == Send(old(State()), text, ok)
    {
      sent := sent + [text];
      if ok {
        delivered := delivered + [text];
      }
    }

    /** The `except` branch: report the error, then end the loop. */
    method Abort(e: Error, ok: bool)
      modifies this
      ensures State() == Send(old(State()), FailureText(e), ok).(failure := Some(e))
    {
      Notify(FailureText(e), ok);
      failure := Some(e);
    }

    /** One pass through the body of `while True`. */
    method Cycle(p: Poll)
      requires failure.None?
      modifies this
      ensures State() == Step(old(State()), p)
    {
      match p.fetch
      case Failure(e) =>
        Abort(e, p.accepted);
      case Success(response) =>
        var homeworks := CheckResponse(response);
        if homeworks.Failure? {
          Abort(homeworks.error, p.accepted);
        } else if |homeworks.value| > 0 {
          var message := ParseStatus(homeworks.value[0]);
          if message.Failure? {
            Abort(message.error, p.accepted);
          } else if Some(message.value) != lastStatus {
            Notify(message.value, p.accepted);
            lastStatus := Some(message.value);
          }
        }
    }

    /** `while True`, over the cycles `polls`, until one of them fails. */
    method Serve(polls: seq<Poll>)
      modifies this
      ensures State() == Run(old(State()), polls)
    {
      ghost var start := State();
      var i := 0;
      while i < |polls| && failure.None?
        invariant 0 <= i <= |polls|
        invariant State() == Run(start, polls[..i])
      {
        RunSnoc(start, polls[..i], polls[i]);
        assert polls[..i + 1] == polls[..i] + [polls[i]];
        Cycle(polls[i]);
        i := i + 1;
      }
      if i < |polls| {
        RunSplit(start, polls[..i], polls[i..]);
        RunAfterFailure(State(), polls[i..]);
        assert polls == polls[..i] + polls[i..];
      } else {
        assert polls[..i] == polls;
      }
    }
  }

  /** `main`: check the credentials, then poll. A missing credential ends the
      program before anything is sent; otherwise the program sends what the
      loop sends and ends with the first error of a cycle, if one fails. */
  method Launch(tokens: Tokens, polls: seq<Poll>) returns (exit: Option<Error>, sent: seq<string>)
    ensures CheckTokens(tokens).Fail? ==> exit == Some(CheckTokens(tokens).error) && sent == []
    ensures CheckTokens(tokens).Pass? ==>
              exit == Run(Initial, polls).failure && sent == Run(Initial, polls).sent
  {
    var gate := CheckTokens(tokens);
    if gate.Fail? {
      return Some(gate.error), [];
    }
    var bot := new Poller();
    bot.Serve(polls);
    exit, sent := bot.failure, bot.sent;
  }
}
