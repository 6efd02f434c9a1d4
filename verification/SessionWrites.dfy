/** The writes of a session are calls of `writensockint`, so what is proved of all such calls holds of them. */
module SessionWrites {
  import opened Common
  import opened Session
  import opened SessionControl
  import opened SessionFlow
  import G = SessionSignals
  import N = SessionEnds
  import T = SessionTheorems
  import W = Writen

  // ---------------------------------------------------------------------------------------------
  // Data writes of the relay loop.

  /** What a step tells the write loop: an answer of the kernel, or the return of the interrupt handler. */
  function AnswerOf(s: State, e: Event, r: State): seq<W.Answer> {
    if s.pc.SockWrite? && e.Wrote? then [W.Took(e.k)]
    else if s.pc.SockWrite? && e.Refused? && !e.intr then [W.Failed]
    else if s.pc.Inter? && s.pc.site.AtSockWrite? && !r.pc.Inter? && InLoop(r.pc)
    then [W.Interrupted(r.pc.SockWrite?)]
    else []
  }

  /** The answers from state `i` to state `j`. */
  function AnswersOf(events: seq<Event>, states: seq<State>, i: nat, j: nat): seq<W.Answer>
    requires i <= j <= |events| && j < |states|
    decreases j
  {
    if i == j then []
    else AnswersOf(events, states, i, j - 1) + AnswerOf(states[j - 1], events[j - 1], states[j])
  }

  /** The call and the session agree; the call is still running exactly while the session is sending. */
  ghost predicate Agree(job: W.Job, s: State, sent: nat) {
    && sent <= |s.h.sent|
    && job.buf == s.b.buf && job.cur == s.cur && job.packets == s.h.sent[sent..]
    && (job.status.Running? <==> Sending(s.pc))
    && (job.status.GaveUp? ==> s.done == 10)
  }

  /** The next answer, if there is one. */
  function Calls1(job: W.Job, answers: seq<W.Answer>): (r: W.Job)
    requires W.Live(job) && |answers| <= 1
    ensures W.Live(r)
  {
    if answers == [] then job else W.Call(job, answers[0])
  }

  lemma TookAgrees(c: Config, s: State, k: nat, job: W.Job, sent: nat)
    requires Shape(c, s) && s.pc.SockWrite? && W.Live(job) && Agree(job, s, sent)
    ensures Agree(W.Call(job, W.Took(k)), SockWriteStep(c, s, Wrote(k)), sent)
  {
    var n := Clip(k, s.cur.left + 1);
    ClipFits(k, s.cur.left + 1);
    PacketsFrom(s.h.sent, W.Packet(s.b.buf, s.cur, n), sent);
    hide Clip, W.Advance, W.Packet, W.Reframe, W.Result;
  }

  lemma PacketsFrom(packets: seq<seq<byte>>, p: seq<byte>, sent: nat)
    requires sent <= |packets|
    ensures (packets + [p])[sent..] == packets[sent..] + [p]
  {
  }

  lemma FailedAgrees(c: Config, s: State, job: W.Job, sent: nat)
    requires Shape(c, s) && s.pc.SockWrite? && W.Live(job) && Agree(job, s, sent)
    ensures Agree(W.Call(job, W.Failed), SockWriteStep(c, s, Refused(false)), sent)
  {
    hide W.Result;
  }

  lemma InterAgrees(c: Config, s: State, e: Event, job: W.Job, sent: nat)
    requires Shape(c, s) && s.pc.Inter? && Sending(s.pc) && W.Live(job) && Agree(job, s, sent)
    ensures var r := InterStep(c, s, e); Agree(Calls1(job, AnswerOf(s, e, r)), r, sent)
  {
    InterEffect(c, s, e);
    InterSites(c, s, e);
    hide InterStep, W.Ok, W.Result;
  }

  lemma InterNextSite(c: Config, s: State, f: Flag, go: bool, site: Site)
    requires Shape(c, s) && s.pc.Inter? && s.pc.site == site
    ensures var r := InterNext(c, s, f, go, site); r.pc.Inter? ==> r.pc.site == site
  {
    hide Shape, W.Ok, W.Result;
  }

  /** `do_inter` stays at the place that it was called from, and leaves buffer and cursor alone. */
  lemma InterSites(c: Config, s: State, e: Event)
    requires Shape(c, s) && s.pc.Inter?
    ensures var r := InterStep(c, s, e);
            (r.pc.Inter? ==> r.pc.site == s.pc.site) && InLoop(r.pc)
            && r.b.buf == s.b.buf && r.h == s.h && r.cur == s.cur
  {
    InterEffect(c, s, e);
    InterSite(c, s, e);
    hide InterStep, W.Result, Shape;
  }

  lemma InterSite(c: Config, s: State, e: Event)
    requires Shape(c, s) && s.pc.Inter?
    ensures var r := InterStep(c, s, e); r.pc.Inter? ==> r.pc.site == s.pc.site
  {
    var Inter(f, phase, go, site) := s.pc;
    G.ServedShape(c, s, f);
    hide Shape, InterNext, Served;
    if e.Tick? && phase.Clear? {
      InterNextSite(c, Served(s, f), f, go && !f.Alrm? && !f.Exit?, site);
    } else if e.Tick? && phase.Test? && !s.sig.Up(f) {
      InterNextSite(c, s, f, go, site);
    }
  }

  lemma LoopAgrees(c: Config, s: State, e: Event, job: W.Job, sent: nat)
    requires Shape(c, s) && Sending(s.pc) && W.Live(job) && Agree(job, s, sent)
    ensures var r := LoopStep(c, s, e); Agree(Calls1(job, AnswerOf(s, e, r)), r, sent)
  {
    LoopIsSend(c, s, e);
    if s.pc.Inter? {
      InterAgrees(c, s, e, job, sent);
      hide *;
    } else if e.Wrote? {
      TookAgrees(c, s, e.k, job, sent);
      hide SockWriteStep, LoopStep, Agree, W.Call, W.Live;
    } else if e.Refused? && !e.intr {
      FailedAgrees(c, s, job, sent);
      RefusedIs(c, s, e);
      hide SockWriteStep, LoopStep, Agree, W.Call, W.Live;
    } else {
      hide Shape, LoopStep, W.Call, W.Live;
    }
  }

  lemma RefusedIs(c: Config, s: State, e: Event)
    requires e.Refused? && !e.intr
    ensures e == Refused(false)
  {
  }

  lemma LoopIsSend(c: Config, s: State, e: Event)
    requires Shape(c, s) && Sending(s.pc)
    ensures LoopStep(c, s, e) == if s.pc.SockWrite? then SockWriteStep(c, s, e) else InterStep(c, s, e)
  {
    hide SockWriteStep, InterStep, Shape;
  }

  lemma StepAgrees(c: Config, s: State, e: Event, job: W.Job, sent: nat)
    requires Shape(c, s) && Sending(s.pc) && W.Live(job) && Agree(job, s, sent) && InLoop(Step(c, s, e).pc)
    ensures var r := Step(c, s, e); Agree(Calls1(job, AnswerOf(s, e, r)), r, sent)
  {
    hide Shape, LoopStep, ClosingStep, W.Call, W.Live;
    if !Environment(e) {
      hide Agree, AnswerOf;
      LoopAgrees(c, s, e, job, sent);
    }
  }

  /** Where a call of `writensockint` on the relay's buffer begins. */
  ghost predicate Begins(s: State) {
    s.pc.SockWrite? && 2 <= s.cur.n <= |s.b.buf| && s.cur == W.Begin(s.b.buf, s.cur.n)
  }

  lemma ReadBegins(c: Config, s: State, e: Event)
    requires Shape(c, s) && s.pc.PtsRead? && Sending(PtsReadStep(c, s, e).pc)
    ensures Begins(PtsReadStep(c, s, e))
  {
    hide Blit, Threshold, Appended;
  }

  lemma FlushBegins(c: Config, s: State)
    requires Shape(c, s) && s.pc.Flush? && Sending(FlushStep(c, s).pc)
    ensures Begins(FlushStep(c, s))
  {
  }

  lemma SockBegins(c: Config, s: State, e: Event)
    requires Shape(c, s) && (s.pc.SockRead? || s.pc.PtsWrite?)
    ensures !Sending(LoopStep(c, s, e).pc)
  {
    hide Shape, Blit, Take, Clip;
  }

  lemma PollBegins(c: Config, s: State, e: Event)
    requires Shape(c, s) && (s.pc.Head? || s.pc.Polling? || s.pc.PipeRead? || s.pc.Check?)
    ensures !Sending(LoopStep(c, s, e).pc)
  {
    hide Shape, Blit, Drained;
  }

  lemma LoopBegins(c: Config, s: State, e: Event)
    requires Shape(c, s) && InLoop(s.pc) && !Sending(s.pc) && Sending(LoopStep(c, s, e).pc)
    ensures Begins(LoopStep(c, s, e))
  {
    LoopIs(c, s, e);
    hide LoopStep, Shape, Begins;
    if s.pc.Inter? {
      InterEffect(c, s, e);
      hide InterStep;
    } else if s.pc.PtsRead? {
      ReadBegins(c, s, e);
    } else if s.pc.Flush? {
      if e.Tick? { FlushBegins(c, s); }
    } else if s.pc.SockRead? || s.pc.PtsWrite? {
      SockBegins(c, s, e);
    } else {
      PollBegins(c, s, e);
    }
  }

  lemma LoopIs(c: Config, s: State, e: Event)
    requires Shape(c, s) && InLoop(s.pc)
    ensures s.pc.Inter? ==> LoopStep(c, s, e) == InterStep(c, s, e)
    ensures s.pc.PtsRead? ==> LoopStep(c, s, e) == PtsReadStep(c, s, e)
    ensures s.pc.Flush? ==> LoopStep(c, s, e) == if e.Tick? then FlushStep(c, s) else s
  {
    hide InterStep, PtsReadStep, FlushStep, Shape;
  }

  lemma StepBegins(c: Config, s: State, e: Event)
    requires Shape(c, s) && !Sending(s.pc) && Sending(Step(c, s, e).pc)
    ensures Begins(Step(c, s, e))
  {
    hide Shape, LoopStep, ClosingStep, Begins;
    if !Environment(e) && InLoop(s.pc) { LoopBegins(c, s, e); }
  }

  lemma StartAgrees(s: State)
    requires Begins(s)
    ensures Agree(W.Start(s.b.buf, s.cur.n), s, |s.h.sent|)
  {
  }

  lemma CallsSnoc(job: W.Job, answers: seq<W.Answer>, more: seq<W.Answer>)
    requires W.Live(job) && |more| <= 1
    ensures W.Calls(job, answers + more) == Calls1(W.Calls(job, answers), more)
  {
    hide W.Call, W.Live;
    if more == [] {
      assert answers + more == answers;
    } else {
      assert more == [more[0]] && (answers + more)[..|answers|] == answers;
    }
  }

  /** `i` is where a data write begins, and it lasts at least up to `j`, the last state still in the loop. */
  ghost predicate WriteFrom(states: seq<State>, i: nat, j: nat)
    requires j < |states|
  {
    && 0 < i <= j && !Sending(states[i - 1].pc) && Sending(states[i].pc) && InLoop(states[j].pc)
    && forall k :: i <= k < j ==> Sending(states[k].pc)
  }

  /**
   A data write of the relay is a call of `writensockint` on the relay's buffer with the answers that came: while
   it lasts the call is running with the same buffer, cursor and packets, and when it is over the call has
   returned with them; a call that gave up leaves code 10.
   */
  lemma {:induction false} DataWriteIsCall(c: Config, events: seq<Event>, states: seq<State>, i: nat, j: nat)
    requires Behaviour(c, events, states) && j < |states| && WriteFrom(states, i, j)
    ensures var s, n := states[i], states[i].cur.n;
            && 2 <= n <= |s.b.buf|
            && Agree(W.Calls(W.Start(s.b.buf, n), AnswersOf(events, states, i, j)), states[j], |s.h.sent|)
    decreases j
  {
    hide *;
    WriteFromMeans(states, i, j);
    T.Kept(c, events, states, i - 1);
    StepBegins(c, states[i - 1], events[i - 1]);
    BeginsMeans(states[i]);
    StartLive(states[i].b.buf, states[i].cur.n);
    var job := W.Start(states[i].b.buf, states[i].cur.n);
    if i == j {
      StartAgrees(states[i]);
      NoAnswers(events, states, i, job);
    } else {
      T.Kept(c, events, states, j - 1);
      DataWriteIsCall(c, events, states, i, j - 1);
      var before := AnswersOf(events, states, i, j - 1);
      var now := AnswerOf(states[j - 1], events[j - 1], states[j]);
      OneAnswer(states[j - 1], events[j - 1], states[j]);
      MoreAnswers(events, states, i, j);
      StepAgrees(c, states[j - 1], events[j - 1], W.Calls(job, before), |states[i].h.sent|);
      CallsSnoc(job, before, now);
    }
  }

  lemma StartLive(buf: seq<byte>, n: nat)
    requires 2 <= n <= |buf|
    ensures W.Live(W.Start(buf, n))
  {
  }

  lemma WriteFromMeans(states: seq<State>, i: nat, j: nat)
    requires j < |states| && WriteFrom(states, i, j)
    ensures 0 < i <= j && !Sending(states[i - 1].pc) && Sending(states[i].pc) && InLoop(states[j].pc)
    ensures i < j ==> Sending(states[j - 1].pc) && WriteFrom(states, i, j - 1)
  {
    if i < j { SendingInLoop(states[j - 1].pc); }
    hide Sending, InLoop;
  }

  lemma BeginsMeans(s: State)
    requires Begins(s)
    ensures 2 <= s.cur.n <= |s.b.buf|
  {
  }

  lemma MoreAnswers(events: seq<Event>, states: seq<State>, i: nat, j: nat)
    requires i < j <= |events| && j < |states|
    ensures AnswersOf(events, states, i, j)
         == AnswersOf(events, states, i, j - 1) + AnswerOf(states[j - 1], events[j - 1], states[j])
  {
  }

  lemma SendingInLoop(pc: Pc)
    requires Sending(pc)
    ensures InLoop(pc)
  {
  }

  lemma NoAnswers(events: seq<Event>, states: seq<State>, i: nat, job: W.Job)
    requires W.Live(job) && i <= |events| && i < |states|
    ensures W.Calls(job, AnswersOf(events, states, i, i)) == job
  {
  }

  lemma OneAnswer(s: State, e: Event, r: State)
    ensures |AnswerOf(s, e, r)| <= 1
  {
  }

  lemma ReturnedResult(c: Config, s: State)
    requires Returning(c, s) && c.Batched()
    ensures var r := WriteReturn(c, s); r.b.lastWrite == W.Result(r.cur)
  {
    hide Shape, W.Result;
  }

  lemma SendKeepsResult(c: Config, s: State, e: Event)
    requires Shape(c, s) && c.Batched() && s.pc.SockWrite?
    ensures var r := SockWriteStep(c, s, e); !Sending(r.pc) ==> r.b.lastWrite == W.Result(r.cur)
  {
    hide Shape, W.Ok, Clip, W.Advance, W.Packet, W.Reframe, W.Result;
  }

  lemma StepKeepsResult(c: Config, s: State, e: Event)
    requires Shape(c, s) && c.Batched() && Sending(s.pc)
    ensures var r := Step(c, s, e); InLoop(r.pc) && !Sending(r.pc) ==> r.b.lastWrite == W.Result(r.cur)
  {
    if Environment(e) {
      hide Shape, LoopStep, ClosingStep;
    } else {
      LoopIsSend(c, s, e);
      hide LoopStep, ClosingStep, SockWriteStep, InterStep, Shape;
      if s.pc.SockWrite? {
        SendKeepsResult(c, s, e);
      } else {
        InterEffect(c, s, e);
        hide WriteReturn, W.Result;
        var r := InterStep(c, s, e);
        if InLoop(r.pc) && !Sending(r.pc) { HandlerKeepsResult(c, s, r); }
      }
    }
  }

  lemma HandlerKeepsResult(c: Config, s: State, r: State)
    requires Shape(c, s) && c.Batched() && r == WriteReturn(c, s.(sig := r.sig))
    ensures r.b.lastWrite == W.Result(r.cur)
  {
    ReturnedResult(c, s.(sig := r.sig));
    hide W.Result, WriteReturn;
  }

  /** What the relay keeps of a flush, lastwritesock, is one more than the payload that the flush has sent. */
  lemma ResultCountsPayload(c: Config, events: seq<Event>, states: seq<State>, i: nat, j: nat)
    requires Behaviour(c, events, states) && c.Batched() && j < |states| && WriteFrom(states, i, j)
    requires !Sending(states[j].pc)
    ensures |states[i].h.sent| <= |states[j].h.sent|
    ensures states[j].b.lastWrite == 1 + |W.Payloads(states[j].h.sent[|states[i].h.sent|..])|
  {
    hide *;
    T.Kept(c, events, states, j);
    WriteFromMeans(states, i, j);
    DataWriteIsCall(c, events, states, i, j);
    var buf, n := states[i].b.buf, states[i].cur.n;
    StartLive(buf, n);
    var answers := AnswersOf(events, states, i, j);
    AgreeMeans(W.Calls(W.Start(buf, n), answers), states[j], |states[i].h.sent|);
    W.FramingLossless(buf, n, answers);
    T.Kept(c, events, states, j - 1);
    StepKeepsResult(c, states[j - 1], events[j - 1]);
  }

  lemma AgreeMeans(job: W.Job, s: State, sent: nat)
    requires Agree(job, s, sent)
    ensures sent <= |s.h.sent| && job.cur == s.cur && job.packets == s.h.sent[sent..]
  {
  }

  // ---------------------------------------------------------------------------------------------
  // The interrupt handler's answer.

  /** In the handler that a data write has called, `go` is up as long as no alarm and no exit signal was served. */
  ghost predicate Going(s: State, stopped: bool) { s.pc.Inter? ==> s.pc.go == !stopped }

  /** The step serves an alarm or an exit signal. */
  predicate Stops(s: State, e: Event) { s.pc.Inter? && s.pc.phase.Clear? && e.Tick? && (s.pc.f.Alrm? || s.pc.f.Exit?) }

  lemma InterNextGoes(c: Config, s: State, f: Flag, go: bool, site: Site)
    requires Shape(c, s) && s.pc.Inter? && s.pc.site == site
    ensures var r := InterNext(c, s, f, go, site);
            if r.pc.Inter? then r.pc.go == go else site.AtSockWrite? ==> (r.pc.SockWrite? <==> go)
  {
    hide Shape, W.Ok, W.Result;
  }

  lemma InterGoes(c: Config, s: State, e: Event, stopped: bool)
    requires Shape(c, s) && s.pc.Inter? && s.pc.site.AtSockWrite? && Going(s, stopped)
    ensures var r := InterStep(c, s, e); var stopped' := stopped || Stops(s, e);
            if r.pc.Inter? then Going(r, stopped') else r.pc.SockWrite? <==> !stopped'
  {
    var Inter(f, phase, go, site) := s.pc;
    G.ServedShape(c, s, f);
    hide Shape, InterNext, Served;
    if e.Tick? && phase.Clear? {
      InterNextGoes(c, Served(s, f), f, go && !f.Alrm? && !f.Exit?, site);
    } else if e.Tick? && phase.Test? && !s.sig.Up(f) {
      InterNextGoes(c, s, f, go, site);
    }
  }

  ghost predicate StoppedBetween(events: seq<Event>, states: seq<State>, i: nat, j: nat)
    requires j <= |events| && j <= |states|
  {
    exists k :: i <= k < j && Stops(states[k], events[k])
  }

  /** `i` is where an interrupted data write calls its handler, which runs at least up to `j`. */
  ghost predicate HandlerFrom(states: seq<State>, i: nat, j: nat)
    requires j < |states|
  {
    && 0 < i <= j && states[i - 1].pc.SockWrite? && states[i].pc.Inter? && InLoop(states[j].pc)
    && forall k :: i <= k < j ==> states[k].pc.Inter?
  }

  lemma HandlerFromMeans(states: seq<State>, i: nat, j: nat)
    requires j < |states| && HandlerFrom(states, i, j)
    ensures 0 < i <= j && states[i - 1].pc.SockWrite? && states[i].pc.Inter? && InLoop(states[j].pc)
    ensures i < j ==> states[j - 1].pc.Inter? && HandlerFrom(states, i, j - 1)
  {
    if i < j { assert states[j - 1].pc.Inter?; }
  }

  lemma HandlerBegins(c: Config, s: State, e: Event)
    requires Shape(c, s) && s.pc.SockWrite? && Step(c, s, e).pc.Inter?
    ensures Step(c, s, e).pc == Inter(Hup, Test, true, AtSockWrite)
  {
    hide W.Ok, Clip, W.Advance, W.Packet, W.Reframe, W.Result;
  }

  lemma StepGoes(c: Config, s: State, e: Event, stopped: bool)
    requires Shape(c, s) && s.pc.Inter? && s.pc.site.AtSockWrite? && Going(s, stopped) && InLoop(Step(c, s, e).pc)
    ensures var r := Step(c, s, e); var stopped' := stopped || Stops(s, e);
            if r.pc.Inter? then Going(r, stopped') && r.pc.site.AtSockWrite? else r.pc.SockWrite? <==> !stopped'
  {
    hide Shape, LoopStep, ClosingStep;
    if !Environment(e) {
      InterGoes(c, s, e, stopped);
      InterSites(c, s, e);
      G.LoopIsInter(c, s, e);
    }
  }

  lemma {:induction false} HandlerFollowed(c: Config, events: seq<Event>, states: seq<State>, i: nat, j: nat)
    requires Behaviour(c, events, states) && j < |states| && |states| == |events| + 1 && HandlerFrom(states, i, j)
    ensures var stopped := StoppedBetween(events, states, i, j);
            if states[j].pc.Inter? then Going(states[j], stopped) && states[j].pc.site.AtSockWrite?
            else states[j].pc.SockWrite? <==> !stopped
    decreases j
  {
    hide *;
    HandlerFromMeans(states, i, j);
    T.Kept(c, events, states, j - 1);
    if i == j {
      HandlerBegins(c, states[i - 1], events[i - 1]);
      GoingAtFirst(events, states, i);
    } else {
      HandlerFollowed(c, events, states, i, j - 1);
      StepGoes(c, states[j - 1], events[j - 1], StoppedBetween(events, states, i, j - 1));
      StoppedNext(events, states, i, j);
    }
  }

  lemma GoingAtFirst(events: seq<Event>, states: seq<State>, i: nat)
    requires i <= |events| && i < |states| && states[i].pc == Inter(Hup, Test, true, AtSockWrite)
    ensures Going(states[i], StoppedBetween(events, states, i, i)) && states[i].pc.site.AtSockWrite?
  {
    hide Stops;
  }

  lemma StoppedNext(events: seq<Event>, states: seq<State>, i: nat, j: nat)
    requires i < j <= |events| && j <= |states|
    ensures StoppedBetween(events, states, i, j)
       <==> StoppedBetween(events, states, i, j - 1) || Stops(states[j - 1], events[j - 1])
  {
    hide Stops;
  }

  /** A data write is resumed after an interrupt exactly if its handler served no alarm and no exit signal. */
  lemma ResumedIffNotStopped(c: Config, events: seq<Event>, states: seq<State>, i: nat, j: nat)
    requires Behaviour(c, events, states) && j < |states| && HandlerFrom(states, i, j) && !states[j].pc.Inter?
    ensures states[j].pc.SockWrite? <==> !StoppedBetween(events, states, i, j)
  {
    HandlerFollowed(c, events, states, i, j);
    hide Behaviour, HandlerFrom, StoppedBetween;
  }

  // ---------------------------------------------------------------------------------------------
  // The Invitation to Clear.

  /** The Invitation to Clear is being sent. */
  predicate Inviting(pc: Pc) { pc.Invite? || pc.InviteInter? }

  /** What a step tells the write of the invitation; its interrupt handler never lets it go on. */
  function InviteAnswer(s: State, e: Event, r: State): seq<W.Answer> {
    if s.pc.Invite? && e.Wrote? then [W.Took(e.k)]
    else if s.pc.Invite? && e.Refused? && !e.intr then [W.Failed]
    else if s.pc.InviteInter? && r.pc == Arm(Net) then [W.Interrupted(false)]
    else []
  }

  function InviteAnswers(events: seq<Event>, states: seq<State>, i: nat, j: nat): seq<W.Answer>
    requires i <= j <= |events| && j < |states|
    decreases j
  {
    if i == j then []
    else InviteAnswers(events, states, i, j - 1) + InviteAnswer(states[j - 1], events[j - 1], states[j])
  }

  ghost predicate InviteAgrees(job: W.Job, s: State) {
    && job.buf == s.note && job.cur == s.cur && job.packets == s.h.control
    && (job.status.Running? <==> Inviting(s.pc))
  }

  lemma InviteTook(c: Config, s: State, k: nat, job: W.Job)
    requires Shape(c, s) && s.pc.Invite? && W.Live(job) && InviteAgrees(job, s)
    ensures InviteAgrees(W.Call(job, W.Took(k)), InviteStep(c, s, Wrote(k)))
  {
    ClipFits(k, s.cur.left + 1);
    hide Clip, W.Advance, W.Packet, W.Reframe, Over;
  }

  lemma InviteFails(c: Config, s: State, job: W.Job)
    requires Shape(c, s) && s.pc.Invite? && W.Live(job) && InviteAgrees(job, s)
    ensures InviteAgrees(W.Call(job, W.Failed), InviteStep(c, s, Refused(false)))
  {
    hide Over;
  }

  lemma InviteInterAgrees(c: Config, s: State, job: W.Job)
    requires Shape(c, s) && Guarded(s) && s.pc.InviteInter? && W.Live(job) && InviteAgrees(job, s)
    requires !InviteInterStep(c, s).pc.Exited?
    ensures var r := InviteInterStep(c, s); InviteAgrees(Calls1(job, InviteAnswer(s, Tick, r)), r)
  {
    hide Over, Lower, W.Ok;
  }

  lemma InviteStepAgrees(c: Config, s: State, e: Event, job: W.Job)
    requires Shape(c, s) && Guarded(s) && Inviting(s.pc) && W.Live(job) && InviteAgrees(job, s)
    requires !ClosingStep(c, s, e).pc.Exited?
    ensures var r := ClosingStep(c, s, e); InviteAgrees(Calls1(job, InviteAnswer(s, e, r)), r)
  {
    InviteIs(c, s, e);
    hide ClosingStep, Guarded;
    if s.pc.InviteInter? {
      if e.Tick? { InviteInterAgrees(c, s, job); }
      hide InviteInterStep, W.Call, W.Live, Shape;
    } else if e.Wrote? {
      InviteTook(c, s, e.k, job);
      hide InviteStep, InviteAgrees, W.Call, W.Live;
    } else if e.Refused? && !e.intr {
      InviteFails(c, s, job);
      RefusedIs(c, s, e);
      hide InviteStep, InviteAgrees, W.Call, W.Live;
    } else {
      hide Shape, W.Call, W.Live, Over;
    }
  }

  lemma InviteIs(c: Config, s: State, e: Event)
    requires Shape(c, s) && Inviting(s.pc)
    ensures s.pc.Invite? ==> ClosingStep(c, s, e) == InviteStep(c, s, e)
    ensures s.pc.InviteInter? ==> ClosingStep(c, s, e) == if e.Tick? then InviteInterStep(c, s) else s
  {
    hide InviteStep, InviteInterStep, Shape, Over;
  }

  /** Where the invitation begins: Q byte 1 and message code 1 in the buffer. */
  ghost predicate InviteBegins(s: State) { s.pc.Invite? && s.note == [1, 1] && s.cur == W.Begin(s.note, 2) }

  lemma ClosingInvites(c: Config, s: State, e: Event)
    requires Shape(c, s) && !InLoop(s.pc) && !Inviting(s.pc) && Inviting(ClosingStep(c, s, e).pc)
    ensures InviteBegins(ClosingStep(c, s, e)) && ClosingStep(c, s, e).h.control == s.h.control && s.pc.Switch?
  {
    hide WaitTestStep, InviteStep, InviteInterStep;
    if s.pc.Switch? {
      SwitchInvites(c, s);
    } else if InWait(s.pc) {
      WaitsDoNotInvite(c, s, e);
      hide WaitStep, Shape;
    } else {
      hide Shape, SwitchStep, WaitStep;
    }
  }

  lemma WaitsDoNotInvite(c: Config, s: State, e: Event)
    requires Shape(c, s) && InWait(s.pc)
    ensures !Inviting(WaitStep(c, s, e).pc)
  {
    hide Shape, Over, Drained, WaitTestStep;
    if s.pc.WaitTest? { WaitTestInWait(c, s, e); }
  }

  lemma WaitTestInWait(c: Config, s: State, e: Event)
    requires Shape(c, s) && s.pc.WaitTest?
    ensures !Inviting(WaitTestStep(c, s, e).pc)
  {
    hide Shape, Over, Lower;
  }

  lemma SwitchInvites(c: Config, s: State)
    requires Shape(c, s) && s.pc.Switch? && Inviting(SwitchStep(c, s).pc)
    ensures InviteBegins(SwitchStep(c, s)) && SwitchStep(c, s).h.control == s.h.control
  {
    var note := s.note[0 := 1][1 := 1];
    assert note == [note[0], note[1]];
    hide Over;
  }

  lemma StepInvites(c: Config, s: State, e: Event)
    requires Shape(c, s) && Control(s) && !Inviting(s.pc) && Inviting(Step(c, s, e).pc)
    ensures InviteBegins(Step(c, s, e)) && Step(c, s, e).h.control == []
  {
    NothingInvited(s);
    hide Shape, LoopStep, ClosingStep, Control, InviteBegins;
    if !Environment(e) {
      if InLoop(s.pc) { LoopDoesNotInvite(c, s, e); } else { ClosingInvites(c, s, e); }
    }
  }

  lemma LoopDoesNotInvite(c: Config, s: State, e: Event)
    requires Shape(c, s) && InLoop(s.pc)
    ensures !Inviting(LoopStep(c, s, e).pc)
  {
    N.LoopWaitsTell(c, s, e);
    hide LoopStep, Shape;
  }

  lemma NothingInvited(s: State)
    requires Control(s)
    ensures s.pc.Switch? ==> s.h.control == []
  {
  }

  lemma InviteStarts(s: State)
    requires InviteBegins(s) && s.h.control == []
    ensures InviteAgrees(W.Start([1, 1], 2), s)
  {
  }

  /** `i` is where the invitation begins, and it lasts at least up to `j`, where it is being sent or just over. */
  ghost predicate InviteFrom(states: seq<State>, i: nat, j: nat)
    requires j < |states|
  {
    && 0 < i <= j && !Inviting(states[i - 1].pc) && Inviting(states[i].pc) && !states[j].pc.Exited?
    && forall k :: i <= k < j ==> Inviting(states[k].pc)
  }

  lemma InviteFromMeans(states: seq<State>, i: nat, j: nat)
    requires j < |states| && InviteFrom(states, i, j)
    ensures 0 < i <= j && !Inviting(states[i - 1].pc) && Inviting(states[i].pc) && !states[j].pc.Exited?
    ensures i < j ==> Inviting(states[j - 1].pc) && InviteFrom(states, i, j - 1)
  {
    if i < j { assert Inviting(states[j - 1].pc); }
  }

  lemma InviteOn(c: Config, s: State, e: Event, job: W.Job)
    requires Shape(c, s) && Control(s) && Inviting(s.pc) && W.Live(job) && InviteAgrees(job, s)
    requires !Step(c, s, e).pc.Exited?
    ensures var r := Step(c, s, e); InviteAgrees(Calls1(job, InviteAnswer(s, e, r)), r)
  {
    hide Shape, LoopStep, ClosingStep, W.Call, W.Live, Coded, Closing, Guarded;
    if !Environment(e) {
      hide InviteAgrees, InviteAnswer;
      InviteStepAgrees(c, s, e, job);
    }
  }

  /**
   The Invitation to Clear is a call of `writensockint` on Q byte 1 and message code 1, with the answers that came;
   its packets are all that the session sends after the loop.
   */
  lemma {:induction false} InvitationIsCall(c: Config, events: seq<Event>, states: seq<State>, i: nat, j: nat)
    requires Behaviour(c, events, states) && j < |states| && |states| == |events| + 1 && InviteFrom(states, i, j)
    ensures InviteAgrees(W.Calls(W.Start([1, 1], 2), InviteAnswers(events, states, i, j)), states[j])
    decreases j
  {
    hide *;
    InviteFromMeans(states, i, j);
    StartLive([1, 1], 2);
    var job := W.Start([1, 1], 2);
    if i == j {
      T.Kept(c, events, states, i - 1);
      StepInvites(c, states[i - 1], events[i - 1]);
      InviteStarts(states[i]);
      NoInviteAnswers(events, states, i, job);
    } else {
      T.Kept(c, events, states, j - 1);
      InvitationIsCall(c, events, states, i, j - 1);
      var before := InviteAnswers(events, states, i, j - 1);
      var now := InviteAnswer(states[j - 1], events[j - 1], states[j]);
      OneInviteAnswer(states[j - 1], events[j - 1], states[j]);
      MoreInviteAnswers(events, states, i, j);
      InviteOn(c, states[j - 1], events[j - 1], W.Calls(job, before));
      CallsSnoc(job, before, now);
    }
  }

  lemma NoInviteAnswers(events: seq<Event>, states: seq<State>, i: nat, job: W.Job)
    requires W.Live(job) && i <= |events| && i < |states|
    ensures W.Calls(job, InviteAnswers(events, states, i, i)) == job
  {
  }

  lemma OneInviteAnswer(s: State, e: Event, r: State)
    ensures |InviteAnswer(s, e, r)| <= 1
  {
  }

  lemma MoreInviteAnswers(events: seq<Event>, states: seq<State>, i: nat, j: nat)
    requires i < j <= |events| && j < |states|
    ensures InviteAnswers(events, states, i, j)
         == InviteAnswers(events, states, i, j - 1) + InviteAnswer(states[j - 1], events[j - 1], states[j])
  {
  }

  /** After an interrupt the invitation is over; `stop`: a flag that ends the process was up then. */
  ghost predicate Interrupted(s: State, stop: bool) {
    if s.pc.InviteInter?
    then stop ==> (s.sig.alrm && (s.pc.f.Hup? || s.pc.f.Alrm?)) || (s.sig.exit && !s.pc.f.Idle? && !s.pc.f.Chld?)
    else s.pc.Exited? || (!stop && (InWait(s.pc) || s.pc.CloseSock? || s.pc.ChildCheck? || s.pc.Finished?))
  }

  lemma InviteIsInterrupted(c: Config, s: State, e: Event)
    requires Shape(c, s) && s.pc.Invite? && e.Refused? && e.intr
    ensures Interrupted(Step(c, s, e), s.sig.alrm || s.sig.exit)
  {
    hide Shape, Over;
  }

  lemma HandlerInterrupted(c: Config, s: State, stop: bool)
    requires Shape(c, s) && Guarded(s) && s.pc.InviteInter? && Interrupted(s, stop)
    ensures Interrupted(InviteInterStep(c, s), stop)
  {
    hide Shape, Over;
  }

  lemma ClosingInterrupted(c: Config, s: State, e: Event, stop: bool)
    requires Shape(c, s) && !s.pc.InviteInter? && Interrupted(s, stop) && !InLoop(s.pc)
    ensures Interrupted(ClosingStep(c, s, e), stop)
  {
    if s.pc.WaitTest? { N.WaitTestTells(c, s, e); }
    hide Shape, Over, WaitTestStep, Drained, InviteStep, InviteInterStep, SwitchStep;
  }

  lemma StaysInterrupted(c: Config, s: State, e: Event, stop: bool)
    requires Shape(c, s) && Guarded(s) && Interrupted(s, stop)
    ensures Interrupted(Step(c, s, e), stop)
  {
    if Environment(e) {
      hide Shape, Guarded, LoopStep, ClosingStep;
    } else {
      InterruptedPlace(s, stop);
      G.ClosingIs(c, s, e);
      hide Shape, Guarded, LoopStep, ClosingStep, InviteInterStep, Interrupted;
      if !s.pc.InviteInter? { ClosingInterrupted(c, s, e, stop); } else if e.Tick? { HandlerInterrupted(c, s, stop); }
    }
  }

  lemma InterruptedPlace(s: State, stop: bool)
    requires Interrupted(s, stop)
    ensures !InLoop(s.pc) && !s.pc.Invite?
    ensures stop ==> s.pc.InviteInter? || s.pc.Exited?
  {
  }

  /**
   An invitation that is interrupted is never resumed; and if an alarm or an exit signal is up then, nothing but the
   handler's exit follows.
   */
  lemma {:induction false} InterruptEndsInvitation(c: Config, events: seq<Event>, states: seq<State>, i: nat, j: nat)
    requires Behaviour(c, events, states) && |states| == |events| + 1 && i < j < |states|
    requires states[i].pc.Invite? && events[i].Refused? && events[i].intr
    ensures Interrupted(states[j], states[i].sig.alrm || states[i].sig.exit)
    ensures !states[j].pc.Invite?
    ensures states[i].sig.alrm || states[i].sig.exit ==> states[j].pc.InviteInter? || states[j].pc.Exited?
    decreases j
  {
    hide *;
    T.Kept(c, events, states, j - 1);
    if j == i + 1 {
      InviteIsInterrupted(c, states[i], events[i]);
    } else {
      InterruptEndsInvitation(c, events, states, i, j - 1);
      N.Guards(states[j - 1]);
      StaysInterrupted(c, states[j - 1], events[j - 1], states[i].sig.alrm || states[i].sig.exit);
    }
    InterruptedPlace(states[j], states[i].sig.alrm || states[i].sig.exit);
  }
}
