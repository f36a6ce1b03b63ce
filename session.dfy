/** The pagination session of `post` (utils/extenders/Message.js:125-158): after the
    first reply, a 1-based page over the payloads moves with the author's `next` and
    `prev` presses, and a `stop` press or the collector's timeout ends it with one last
    edit that clears the buttons. Every reply and edit is recorded in a log. */
module Session {
  import opened Js
  import opened Pages

  type UserId = string

  /** The placeholder content of a payload shown after navigation. */
  const ZeroWidthSpace := "\U{200B}"

  /** `next`: one page on, from the last back to the first. */
  function Next(page: nat, n: nat): (r: nat)
    ensures 1 <= page <= n ==> 1 <= r <= n
  {
    if page < n then page + 1 else 1
  }

  /** `prev`: one page back, from the first round to the last. */
  function Prev(page: nat, n: nat): (r: nat)
    ensures 1 <= page <= n ==> 1 <= r <= n
  {
    if page > 1 then page - 1 else n
  }

  /** `prev` undoes `next`, and `next` undoes `prev`. */
  lemma PrevUndoesNext(page: nat, n: nat)
    requires 1 <= page <= n
    ensures Prev(Next(page, n), n) == page
    ensures Next(Prev(page, n), n) == page
  {
  }

  /** `k` presses of `next`. */
  function NextIter(page: nat, n: nat, k: nat): nat
    decreases k
  {
    if k == 0 then page else Next(NextIter(page, n, k - 1), n)
  }

  /** Pressing `next` `a` times and then `b` times is pressing it `a + b` times. */
  lemma {:induction false} NextIterAdd(page: nat, n: nat, a: nat, b: nat)
    ensures NextIter(page, n, a + b) == NextIter(NextIter(page, n, a), n, b)
    decreases b
  {
    if b > 0 {
      NextIterAdd(page, n, a, b - 1);
    }
  }

  /** Below the last page, `k` presses of `next` move `k` pages on. */
  lemma {:induction false} NextIterClimbs(page: nat, n: nat, k: nat)
    requires 1 <= page && page + k <= n
    ensures NextIter(page, n, k) == page + k
    decreases k
  {
    if k > 0 {
      NextIterClimbs(page, n, k - 1);
    }
  }

  /** `n` presses of `next` come back to the page they started from: up to the last
      page, round to the first, and up again. */
  lemma FullTurn(page: nat, n: nat)
    requires 1 <= page <= n
    ensures NextIter(page, n, n) == page
  {
    NextIterClimbs(page, n, n - page);
    NextIterAdd(page, n, n - page, 1);
    assert NextIter(page, n, n - page + 1) == 1;
    NextIterClimbs(1, n, page - 1);
    NextIterAdd(page, n, n - page + 1, page - 1);
  }

  /** No collector (a one-page post), a collector that takes presses, or one that has ended. */
  datatype Phase = Single | Listening | Ended

  /** A message sent on the channel: the first reply, or an edit of it. */
  datatype Action = Reply(payload: Payload) | Edit(payload: Payload)

  /** A button press reaching the collector, or the collector's `time` running out. */
  datatype Event = Press(user: UserId, customId: string) | Expired

  datatype State = State(sending: seq<Payload>, page: nat, phase: Phase, log: seq<Action>)

  predicate InRange(s: State) {
    1 <= s.page <= |s.sending|
  }

  /** An edit that shows no buttons: the one the end of a session sends. */
  predicate IsFinal(a: Action) {
    a.Edit? && a.payload.components == []
  }

  function Finals(log: seq<Action>): nat
    decreases |log|
  {
    if |log| == 0 then 0
    else Finals(log[..|log| - 1]) + (if IsFinal(log[|log| - 1]) then 1 else 0)
  }

  lemma FinalsAppend(log: seq<Action>, a: Action)
    ensures Finals(log + [a]) == Finals(log) + (if IsFinal(a) then 1 else 0)
  {
    assert (log + [a])[..|log|] == log;
  }

  /** The first reply (line 127) and, for more than one payload, the collector (lines 129-134). */
  function Start(sending: seq<Payload>, page: nat): (s: State)
    requires 1 <= page <= |sending|
    ensures s.sending == sending && s.page == page
    ensures s.log == [Reply(sending[page - 1])]
    ensures s.phase == Single <==> |sending| == 1
    ensures s.phase != Ended
  {
    State(sending, page, if |sending| == 1 then Single else Listening, [Reply(sending[page - 1])])
  }

  /** The `end` handler (lines 155-158). */
  function Finish(s: State): State
    requires InRange(s)
  {
    var shown := s.sending[s.page - 1].(components := []);
    State(s.sending[s.page - 1 := shown], s.page, Ended, s.log + [Edit(shown)])
  }

  /** One event; presses pass the collector's filter only when made by the author. */
  function Step(s: State, author: UserId, e: Event): (r: State)
    requires InRange(s)
    ensures InRange(r) && |r.sending| == |s.sending|
    ensures s.phase != Listening ==> r == s
    ensures e.Press? && e.user != author ==> r == s
    // `stop` and the timeout end the session on the current page, clearing its buttons only
    ensures s.phase == Listening && (e.Expired? || e == Press(author, "stop")) ==>
              && r.phase == Ended && r.page == s.page
              && r.sending[s.page - 1] == s.sending[s.page - 1].(components := [])
              && (forall i :: 0 <= i < |s.sending| && i != s.page - 1 ==> r.sending[i] == s.sending[i])
              && r.log == s.log + [Edit(r.sending[s.page - 1])]
    // any other press by the author selects a page and edits the message to exactly that payload
    ensures s.phase == Listening && e.Press? && e.user == author && e.customId != "stop" ==>
              && r.phase == Listening
              && r.page == (if e.customId == "next" then Next(s.page, |s.sending|)
                            else if e.customId == "prev" then Prev(s.page, |s.sending|)
                            else s.page)
              && r.sending[r.page - 1]
                 == s.sending[r.page - 1].(content := Or(s.sending[r.page - 1].content, Str(ZeroWidthSpace)))
              && (forall i :: 0 <= i < |s.sending| && i != r.page - 1 ==> r.sending[i] == s.sending[i])
              && r.log == s.log + [Edit(r.sending[r.page - 1])]
  {
    if s.phase != Listening then s
    else
      match e
      case Expired => Finish(s)
      case Press(user, id) =>
        if user != author then s
        else if id == "stop" then Finish(s)
        else
          var page := if id == "next" then Next(s.page, |s.sending|)
                      else if id == "prev" then Prev(s.page, |s.sending|)
                      else s.page;
          var shown := s.sending[page - 1].(content := Or(s.sending[page - 1].content, Str(ZeroWidthSpace)));
          State(s.sending[page - 1 := shown], page, Listening, s.log + [Edit(shown)])
  }

  /** A sequence of events, in order. */
  function Run(s: State, author: UserId, events: seq<Event>): (r: State)
    requires InRange(s)
    ensures InRange(r) && |r.sending| == |s.sending|
    decreases |events|
  {
    if events == [] then s else Run(Step(s, author, events[0]), author, events[1..])
  }

  /** What every reachable state satisfies: the page is in range, the buttons are
      cleared on the current page only and only once the session has ended, and the log
      holds one final edit exactly when it has. */
  predicate Consistent(s: State) {
    && InRange(s)
    && (s.phase == Single <==> |s.sending| == 1)
    && (forall i :: 0 <= i < |s.sending| && (s.phase != Ended || i != s.page - 1)
          ==> s.sending[i].components == [NavRow])
    && (s.phase == Ended ==> s.sending[s.page - 1].components == [])
    && Finals(s.log) == (if s.phase == Ended then 1 else 0)
  }

  lemma StartConsistent(sending: seq<Payload>, page: nat)
    requires 1 <= page <= |sending|
    requires forall i :: 0 <= i < |sending| ==> sending[i].components == [NavRow]
    ensures Consistent(Start(sending, page))
  {
    FinalsAppend([], Reply(sending[page - 1]));
  }

  lemma StepConsistent(s: State, author: UserId, e: Event)
    requires Consistent(s)
    ensures Consistent(Step(s, author, e))
  {
    var r := Step(s, author, e);
    if r != s {
      FinalsAppend(s.log, r.log[|r.log| - 1]);
      assert r.log == s.log + [r.log[|r.log| - 1]];
    }
  }

  lemma {:induction false} RunConsistent(s: State, author: UserId, events: seq<Event>)
    requires Consistent(s)
    ensures Consistent(Run(s, author, events))
    decreases |events|
  {
    if events != [] {
      StepConsistent(s, author, events[0]);
      RunConsistent(Step(s, author, events[0]), author, events[1..]);
    }
  }

  /** Once ended, or when never started, nothing changes any more. */
  lemma {:induction false} Quiescent(s: State, author: UserId, events: seq<Event>)
    requires InRange(s) && s.phase != Listening
    ensures Run(s, author, events) == s
    decreases |events|
  {
    if events != [] {
      Quiescent(s, author, events[1..]);
    }
  }

  /** A one-page post sends its reply and nothing else, whatever happens afterwards. */
  lemma {:induction false} SinglePageSendsOnce(sending: seq<Payload>, author: UserId, events: seq<Event>)
    requires |sending| == 1
    ensures Run(Start(sending, 1), author, events).log == [Reply(sending[0])]
  {
    Quiescent(Start(sending, 1), author, events);
  }

  /** Presses by anyone but the author change nothing. */
  lemma {:induction false} OthersIgnored(s: State, author: UserId, events: seq<Event>)
    requires InRange(s)
    requires forall i :: 0 <= i < |events| ==> events[i].Press? && events[i].user != author
    ensures Run(s, author, events) == s
    decreases |events|
  {
    if events != [] {
      OthersIgnored(s, author, events[1..]);
    }
  }

  /** `k` presses of the same button by the same user. */
  function Presses(user: UserId, customId: string, k: nat): seq<Event> {
    seq(k, _ => Press(user, customId))
  }

  /** `k` presses of `next` by the author move the page on by `k`, with wrap-around. */
  lemma {:induction false} NextPresses(s: State, author: UserId, k: nat)
    requires InRange(s) && s.phase == Listening
    ensures Run(s, author, Presses(author, "next", k)).page == NextIter(s.page, |s.sending|, k)
    ensures Run(s, author, Presses(author, "next", k)).phase == Listening
    decreases k
  {
    if k > 0 {
      var s' := Step(s, author, Press(author, "next"));
      assert Presses(author, "next", k)[1..] == Presses(author, "next", k - 1);
      NextPresses(s', author, k - 1);
      NextIterShift(s.page, |s.sending|, k - 1);
    }
  }

  /** Pressing `next` once, then `k` times, is pressing it `k + 1` times. */
  lemma {:induction false} NextIterShift(page: nat, n: nat, k: nat)
    ensures NextIter(Next(page, n), n, k) == NextIter(page, n, k + 1)
    decreases k
  {
    if k > 0 {
      NextIterShift(page, n, k - 1);
    }
  }

  /** As many `next` presses as there are pages show the starting page again. */
  lemma NextPressesComeBack(s: State, author: UserId)
    requires InRange(s) && s.phase == Listening
    ensures Run(s, author, Presses(author, "next", |s.sending|)).page == s.page
  {
    NextPresses(s, author, |s.sending|);
    FullTurn(s.page, |s.sending|);
  }

  /** A session ends at most once: its log never holds more than one button-clearing
      edit, and holds one exactly when the session has ended. */
  lemma EndsAtMostOnce(sending: seq<Payload>, page: nat, author: UserId, events: seq<Event>)
    requires 1 <= page <= |sending|
    requires forall i :: 0 <= i < |sending| ==> sending[i].components == [NavRow]
    ensures Finals(Run(Start(sending, page), author, events).log)
            == if Run(Start(sending, page), author, events).phase == Ended then 1 else 0
  {
    StartConsistent(sending, page);
    RunConsistent(Start(sending, page), author, events);
  }

  /** The session of one paginated post, with the collector's handlers as methods. */
  class Pagination {
    const author: UserId
    const sending: array<Payload>
    var page: nat
    var phase: Phase
    var log: seq<Action>

    ghost function Model(): State
      reads this, sending
    {
      State(sending[..], page, phase, log)
    }

    ghost predicate Valid()
      reads this, sending
    {
      Consistent(Model())
    }

    /** Sends the payload of the start page (line 127) and, for more than one payload,
        creates the collector (lines 129-134). */
    constructor (payloads: seq<Payload>, start: nat, author: UserId)
      requires 1 <= start <= |payloads|
      requires forall i :: 0 <= i < |payloads| ==> payloads[i].components == [NavRow]
      ensures Valid() && fresh(sending) && this.author == author
      ensures Model() == Start(payloads, start)
    {
      this.author := author;
      sending := new Payload[|payloads|](i requires 0 <= i < |payloads| => payloads[i]);
      page := start;
      log := [Reply(payloads[start - 1])];
      phase := if |payloads| == 1 then Single else Listening;
      new;
      assert sending[..] == payloads;
      StartConsistent(payloads, start);
    }

    /** The `collect` handler (lines 136-153), reached only through the filter of line 132. */
    method Collect(user: UserId, customId: string)
      requires Valid()
      modifies this, sending
      ensures Valid()
      ensures Model() == Step(old(Model()), author, Press(user, customId))
    {
      StepConsistent(Model(), author, Press(user, customId));
      if phase != Listening || user != author {
        return;
      }
      if customId == "next" {
        page := if page < sending.Length then page + 1 else 1;
      } else if customId == "prev" {
        page := if page > 1 then page - 1 else sending.Length;
      } else if customId == "stop" {
        End();
        return;
      }
      sending[page - 1] := sending[page - 1].(content := Or(sending[page - 1].content, Str(ZeroWidthSpace)));
      log := log + [Edit(sending[page - 1])];
    }

    /** The collector's `time` has run out. */
    method Expire()
      requires Valid()
      modifies this, sending
      ensures Valid()
      ensures Model() == Step(old(Model()), author, Expired)
    {
      StepConsistent(Model(), author, Expired);
      if phase == Listening {
        End();
      }
    }

    /** The `end` handler (lines 155-158). */
    method End()
      requires Valid() && phase == Listening
      modifies this, sending
      ensures Valid()
      ensures Model() == Step(old(Model()), author, Expired)
      ensures Model() == Finish(old(Model()))
    {
      StepConsistent(Model(), author, Expired);
      sending[page - 1] := sending[page - 1].(components := []);
      log := log + [Edit(sending[page - 1])];
      phase := Ended;
    }
  }
}
