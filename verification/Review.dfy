/** The approval review session of clients/vscode-notify/review.js, as the events that reach it. */
module Review {
  import opened Wrappers

  predicate Hex(s: string, n: nat) {
    |s| == n && forall i :: 0 <= i < |s| ==> '0' <= s[i] <= '9' || 'a' <= s[i] <= 'f'
  }

  predicate ValidID(s: string) {
    Hex(s, 32)
  }

  predicate ValidToken(s: string) {
    Hex(s, 64)
  }

  datatype Decision = Allow | Deny | RequireApproval

  datatype Choice = Choice(decision: Decision, global: bool)

  datatype Offer = Offer(choice: Choice, decision: Decision)

  datatype View = View(requestID: string, token: string, digest: string, offers: seq<Offer>)

  predicate Distinct<T(==)>(s: seq<T>) {
    forall i, j :: 0 <= i < j < |s| ==> s[i] != s[j]
  }

  function Choices(offers: seq<Offer>): seq<Choice> {
    seq(|offers|, i requires 0 <= i < |offers| => offers[i].choice)
  }

  /** `validView` */
  predicate ValidView(v: View) {
    ValidID(v.requestID) && ValidToken(v.token) && ValidToken(v.digest) && |v.offers| <= 6
      && Distinct(Choices(v.offers))
  }

  /** The `save` field of a decision: empty, one of the choices, or anything else. */
  datatype Save = Nothing | Scope(choice: Choice) | Unknown

  datatype Action = List | Select(id: string) | Decide(id: string, token: string, approved: bool, save: Save)

  datatype Request = Request(sequence: nat, action: Action)

  datatype Message = Ready | ListRequest | SelectRequest(id: string)
          | DecideRequest(id: string, token: string, approved: bool, save: Save) | OtherMessage

  datatype Content = Error | Pending(items: seq<string>) | Selected(view: View)
          | Result(id: Option<string>, unconfirmed: bool) | OtherContent

  datatype Reply = Reply(version: int, sequence: int, content: Content)

  /**
   What the outside decides during one event: whether the window is trusted, and whether writing to the
   child throws.
   */
  datatype Env = Env(allowed: bool, broken: bool)

  /** One line to or from the controller. */
  datatype Traffic = Out(request: Request) | In(sequence: nat)

  /**
   A session: the variables of the closure, then its history: the traffic, the views it accepted as
   selections, and for each decision sent the selection it was made on.
   */
  datatype Session = Session(
    ready: bool, closed: bool, inflight: Option<Request>, poll: bool, selected: Option<View>,
    pending: seq<string>, sequence: nat, initial: Option<string>,
    log: seq<Traffic>, accepted: seq<View>, decisions: seq<nat>)

  function Opened(requestID: Option<string>): Session {
    Session(false, false, None, false, None, [], 0, requestID, [], [], [])
  }

  // ---------------------------------------------------------------------
  // The handlers

  /** `stop`, and `fail`, which also tells the panel. */
  function Stopped(s: Session): Session {
    s.(closed := true, poll := false)
  }

  /** The decisions recorded once `action` is sent. */
  function DecisionsWith(s: Session, action: Action): seq<nat> {
    if action.Decide? && s.accepted != [] then s.decisions + [|s.accepted| - 1] else s.decisions
  }

  function Sent(s: Session, r: Request): Session {
    s.(log := s.log + [Out(r)], decisions := DecisionsWith(s, r.action))
  }

  /** `send` */
  function Send(s: Session, action: Action, env: Env): Session {
    if s.closed || !s.ready || s.inflight.Some? then s
    else if !env.allowed then Stopped(s)
    else
      var r := Request(s.sequence + 1, action);
      var s' := s.(poll := false, sequence := r.sequence, inflight := Some(r));
      if env.broken then Stopped(s') else Sent(s', r)
  }

  /** `select` */
  function Choose(s: Session, id: string, env: Env): Session {
    if !s.ready || s.inflight.Some? then s.(initial := Some(id))
    else if id !in s.pending then Send(s.(initial := Some(id)), List, env)
    else Send(s.(selected := None), Select(id), env)
  }

  predicate Acceptable(items: seq<string>) {
    |items| <= 128 && Distinct(items) && forall i :: 0 <= i < |items| ==> ValidID(items[i])
  }

  /** What a fitting reply does to the session; `None` is a reply that does not fit what was sent. */
  function Answered(s: Session, sent: Action, content: Content): Option<Session> {
    if content.Error? then Some(s.(selected := None))
    else if sent.List? && content.Pending? && Acceptable(content.items) then
      var kept := s.selected.Some? && s.selected.value.requestID in content.items;
      Some(s.(pending := content.items, selected := if kept then s.selected else None))
    else if sent.Select? && content.Selected? && ValidView(content.view) && content.view.requestID == sent.id then
      Some(s.(selected := Some(content.view), accepted := s.accepted + [content.view]))
    else if sent.Decide? && content.Result? && (content.id == Some(sent.id) || content.unconfirmed) then
      Some(s.(selected := None))
    else None
  }

  function Next(s: Session, env: Env): Session {
    if s.initial.Some? then Send(s.(initial := None, selected := None), Select(s.initial.value), env)
    else s.(poll := true)
  }

  /** `receive` */
  function Receive(s: Session, reply: Reply, env: Env): Session {
    if s.inflight.None? || reply.version != 1 || reply.sequence != s.inflight.value.sequence then Stopped(s)
    else
      var sent := s.inflight.value;
      match Answered(s.(inflight := None, log := s.log + [In(sent.sequence)]), sent.action, reply.content)
      case None => Stopped(s.(inflight := None, log := s.log + [In(sent.sequence)]))
      case Some(s') => Next(s', env)
  }

  predicate Agrees(offer: Offer, approved: bool) {
    (offer.decision == Allow ==> approved) && (offer.decision == Deny ==> !approved)
  }

  /** The choice a decision wants saved is offered, and agrees with it; choices are offered once each. */
  predicate Savable(view: View, approved: bool, save: Save) {
    || save.Nothing?
    || (save.Scope? && exists i ::
          0 <= i < |view.offers| && view.offers[i].choice == save.choice && Agrees(view.offers[i], approved))
  }

  /** The panel's message handler. */
  function Handle(s: Session, m: Message, env: Env): Session {
    if s.closed then s
    else if !env.allowed then Stopped(s)
    else if m.Ready? && !s.ready then Send(s.(ready := true), List, env)
    else if !s.ready || s.inflight.Some? then s
    else if m.ListRequest? then Send(s, List, env)
    else if m.SelectRequest? && ValidID(m.id) && m.id in s.pending then Choose(s, m.id, env)
    else if m.DecideRequest? && s.selected.Some? && m.id == s.selected.value.requestID
      && m.token == s.selected.value.token
         && Savable(s.selected.value, m.approved, m.save) then
      Send(s.(selected := None), Decide(m.id, m.token, m.approved, m.save), env)
    else s
  }

  /**
   Everything that can happen to a session; `Lost` is any of the failures and the deadline, or the
   panel's disposal.
   */
  datatype Event = Panel(message: Message) | Line(reply: Reply) | Tick | Notified(id: string) | Lost

  function Step(s: Session, e: Event, env: Env): Session {
    match e
    case Panel(m) => Handle(s, m, env)
    case Line(reply) => if s.closed then s else Receive(s, reply, env)
    case Tick => if s.poll then Send(s, List, env) else s
    case Notified(id) => Choose(s, id, env)
    case Lost => Stopped(s)
  }

  function Run(s: Session, events: seq<(Event, Env)>): Session
    decreases |events|
  {
    if events == [] then s else Step(Run(s, events[..|events| - 1]), events[|events| - 1].0, events[|events| - 1].1)
  }

  // ---------------------------------------------------------------------
  // The traffic

  function Last<T>(s: seq<T>): T
    requires s != []
  {
    s[|s| - 1]
  }

  function Init<T>(s: seq<T>): seq<T>
    requires s != []
  {
    s[..|s| - 1]
  }

  /** The request the controller has not answered. */
  function Unanswered(log: seq<Traffic>): Option<Request> {
    if log != [] && Last(log).Out? then Some(Last(log).request) else None
  }

  function Requests(log: seq<Traffic>): nat {
    if log == [] then 0 else Requests(Init(log)) + if Last(log).Out? then 1 else 0
  }

  /**
   Each request is sent after the one before it was answered, and numbered after it; each answer is to
   the last request.
   */
  predicate Orderly(log: seq<Traffic>) {
    log == [] || (
      && Orderly(Init(log))
      && match Last(log) {
           case Out(r) => Unanswered(Init(log)).None? && r.sequence == Requests(Init(log)) + 1
           case In(n) => Unanswered(Init(log)).Some? && n == Unanswered(Init(log)).value.sequence
         })
  }

  /** The decisions among the requests sent. */
  function Decisions(log: seq<Traffic>): seq<Action> {
    if log == [] then []
    else Decisions(Init(log)) + if Last(log).Out? && Last(log).request.action.Decide? then [Last(log).request.action]
      else []
  }

  /** A decision made on a selection carries its request ID and token. */
  predicate DecisionOn(made: Action, view: View) {
    made.Decide? && made.id == view.requestID && made.token == view.token
  }

  /** Each decision was made on one of the accepted selections, a later one each time. */
  predicate MadeOn(made: seq<Action>, decisions: seq<nat>, accepted: seq<View>) {
    && |made| == |decisions|
    && (forall k :: 0 <= k < |decisions| ==> decisions[k] < |accepted| && DecisionOn(made[k], accepted[decisions[k]]))
    && (forall j, k :: 0 <= j < k < |decisions| ==> decisions[j] < decisions[k])
  }

  /** Each decision names the request and token of the selection it was made on, and no selection is decided twice. */
  predicate Faithful(s: Session) {
    MadeOn(Decisions(s.log), s.decisions, s.accepted)
  }

  /** What is selected is the last view accepted, and not decided yet. */
  predicate Undecided(s: Session) {
    s.selected.Some? ==>
      && s.accepted != [] && s.selected.value == Last(s.accepted)
      && forall k :: 0 <= k < |s.decisions| ==> s.decisions[k] < |s.accepted| - 1
  }

  /**
   While open, the session's variables agree with the traffic, and it is either waiting for an answer or
   will ask again.
   */
  predicate Live(s: Session) {
    && Unanswered(s.log) == s.inflight && Requests(s.log) == s.sequence
    && (if s.ready then s.inflight.Some? <==> !s.poll else s.inflight.None? && !s.poll)
  }

  predicate Inv(s: Session) {
    Orderly(s.log) && Faithful(s) && (if s.closed then !s.poll else Live(s) && Undecided(s))
  }

  // ---------------------------------------------------------------------
  // Every handler keeps them

  lemma OneMore(log: seq<Traffic>, t: Traffic)
    ensures Init(log + [t]) == log && Last(log + [t]) == t
  {
  }

  /** A request may be sent: nothing is unanswered, and a decision is about the view just deselected. */
  predicate MaySend(s: Session, action: Action) {
    && !s.closed && s.ready && s.inflight.None? && Orderly(s.log) && Faithful(s)
    && Unanswered(s.log).None? && Requests(s.log) == s.sequence && Undecided(s)
    && (action.Decide? ==>
          && s.selected.None? && s.accepted != [] && DecisionOn(action, Last(s.accepted))
          && forall k :: 0 <= k < |s.decisions| ==> s.decisions[k] < |s.accepted| - 1)
  }

  lemma MadeOneMore(made: seq<Action>, decisions: seq<nat>, accepted: seq<View>, action: Action)
    requires MadeOn(made, decisions, accepted) && accepted != [] && DecisionOn(action, Last(accepted))
    requires forall k :: 0 <= k < |decisions| ==> decisions[k] < |accepted| - 1
    ensures MadeOn(made + [action], decisions + [|accepted| - 1], accepted)
  {
  }

  lemma TrafficKeeps(s: Session, r: Request)
    requires MaySend(s, r.action) && r.sequence == s.sequence + 1
    ensures var log := s.log + [Out(r)];
            && Orderly(log) && MadeOn(Decisions(log), DecisionsWith(s, r.action), s.accepted)
            && Unanswered(log) == Some(r) && Requests(log) == r.sequence
  {
    OneMore(s.log, Out(r));
    if r.action.Decide? {
      MadeOneMore(Decisions(s.log), s.decisions, s.accepted, r.action);
    } else {
      assert Decisions(s.log) + [] == Decisions(s.log);
    }
  }

  lemma SendKeeps(s: Session, action: Action, env: Env)
    requires MaySend(s, action)
    ensures Inv(Send(s, action, env))
  {
    if env.allowed && !env.broken {
      var r := Request(s.sequence + 1, action);
      TrafficKeeps(s, r);
      SendsOne(s, action, env);
      SendKeepsUndecided(s, action, env);
    }
  }

  lemma SendsOne(s: Session, action: Action, env: Env)
    requires !s.closed && s.ready && s.inflight.None? && env.allowed && !env.broken
    ensures var r, s' := Request(s.sequence + 1, action), Send(s, action, env);
            && s'.log == s.log + [Out(r)] && s'.decisions == DecisionsWith(s, action) && s'.accepted == s.accepted
            && s'.inflight == Some(r) && !s'.poll && s'.ready && !s'.closed && s'.sequence == r.sequence
            && s'.selected == s.selected
  {
  }

  lemma SendKeepsUndecided(s: Session, action: Action, env: Env)
    requires MaySend(s, action) && env.allowed && !env.broken
    ensures Undecided(Send(s, action, env))
  {
  }

  lemma ChooseKeeps(s: Session, id: string, env: Env)
    requires Inv(s)
    ensures Inv(Choose(s, id, env))
  {
    if !s.closed && s.ready && s.inflight.None? {
      if id !in s.pending {
        SendKeeps(s.(initial := Some(id)), List, env);
      } else {
        SendKeeps(s.(selected := None), Select(id), env);
      }
    }
  }

  lemma HandleKeeps(s: Session, m: Message, env: Env)
    requires Inv(s)
    ensures Inv(Handle(s, m, env))
  {
    if !s.closed && env.allowed {
      if m.Ready? && !s.ready {
        SendKeeps(s.(ready := true), List, env);
      } else if s.ready && s.inflight.None? {
        if m.ListRequest? {
          SendKeeps(s, List, env);
        } else if m.SelectRequest? {
          ChooseKeeps(s, m.id, env);
        } else if m.DecideRequest? && s.selected.Some? && m.id == s.selected.value.requestID
          && m.token == s.selected.value.token {
          SendKeeps(s.(selected := None), Decide(m.id, m.token, m.approved, m.save), env);
        }
      }
    }
  }

  /** The session between an answer and what it does next. */
  predicate Between(s: Session) {
    && !s.closed && s.ready && s.inflight.None? && !s.poll && Orderly(s.log) && Faithful(s)
    && Unanswered(s.log).None? && Requests(s.log) == s.sequence && Undecided(s)
  }

  lemma AnsweredIsBetween(s: Session, sent: Action, content: Content)
    requires Between(s) && Answered(s, sent, content).Some?
    ensures Between(Answered(s, sent, content).value)
  {
  }

  lemma NextKeeps(s: Session, env: Env)
    requires Between(s)
    ensures Inv(Next(s, env))
  {
    if s.initial.Some? {
      SendKeeps(s.(initial := None, selected := None), Select(s.initial.value), env);
    }
  }

  lemma ReceiveKeeps(s: Session, reply: Reply, env: Env)
    requires Inv(s) && !s.closed
    ensures Inv(Receive(s, reply, env))
  {
    if s.inflight.Some? && reply.version == 1 && reply.sequence == s.inflight.value.sequence {
      var sent := s.inflight.value;
      OneMore(s.log, In(sent.sequence));
      assert Decisions(s.log) + [] == Decisions(s.log);
      var s' := s.(inflight := None, log := s.log + [In(sent.sequence)]);
      assert Between(s');
      var answered := Answered(s', sent.action, reply.content);
      if answered.Some? {
        AnsweredIsBetween(s', sent.action, reply.content);
        NextKeeps(answered.value, env);
      }
    }
  }

  lemma StepKeeps(s: Session, e: Event, env: Env)
    requires Inv(s)
    ensures Inv(Step(s, e, env))
  {
    match e
    case Panel(m) => HandleKeeps(s, m, env);
    case Line(reply) => if !s.closed { ReceiveKeeps(s, reply, env); }
    case Tick => if s.poll { SendKeeps(s, List, env); }
    case Notified(id) => ChooseKeeps(s, id, env);
    case Lost =>
  }

  /**
   In every run: requests are numbered in order and sent one at a time, an open session that is ready
   waits for an answer or has a poll scheduled but never both, and every decision sent carries the
   request ID and token of an accepted selection, a different one each time.
   */
  lemma {:induction false} EveryRunIsOrderly(requestID: Option<string>, events: seq<(Event, Env)>)
    ensures var s := Run(Opened(requestID), events);
            && Inv(s) && Orderly(s.log) && Faithful(s)
            && (s.ready && !s.closed ==> (s.inflight.Some? <==> !s.poll) && Unanswered(s.log) == s.inflight)
    decreases |events|
  {
    if events == [] {
    } else {
      EveryRunIsOrderly(requestID, events[..|events| - 1]);
      StepKeeps(Run(Opened(requestID), events[..|events| - 1]), events[|events| - 1].0, events[|events| - 1].1);
    }
  }

  /** In orderly traffic the requests are numbered 1, 2, 3, ... */
  lemma {:induction false} RequestsAreNumbered(log: seq<Traffic>, i: nat)
    requires Orderly(log) && i < |log| && log[i].Out?
    ensures log[i].request.sequence == Requests(log[..i + 1])
    ensures forall j :: 0 <= j < i && log[j].Out? ==> log[j].request.sequence < log[i].request.sequence
    decreases |log|
  {
    if i + 1 < |log| {
      RequestsAreNumbered(Init(log), i);
      assert Init(log)[..i + 1] == log[..i + 1];
    } else {
      assert log[..i + 1] == log;
      forall j | 0 <= j < i && log[j].Out?
        ensures log[j].request.sequence < log[i].request.sequence
      {
        RequestsAreNumbered(Init(log), j);
        assert Init(log)[j] == log[j];
        RequestsGrow(Init(log), j + 1);
      }
    }
  }

  lemma {:induction false} RequestsGrow(log: seq<Traffic>, i: nat)
    requires i <= |log|
    ensures Requests(log[..i]) <= Requests(log)
    decreases |log|
  {
    if i == |log| {
      assert log[..i] == log;
    } else {
      RequestsGrow(Init(log), i);
      assert Init(log)[..i] == log[..i];
    }
  }

  /** Nothing is sent by a closed session, because of what its handlers check: one event. */
  lemma ClosedStepIsSilent(s: Session, e: Event, env: Env)
    requires s.closed && !s.poll
    ensures var s' := Step(s, e, env);
            s'.closed && !s'.poll && s'.log == s.log && s'.accepted == s.accepted && s'.decisions == s.decisions
  {
  }

  /** Whatever still happens to a closed session, no request is sent, no view accepted and no decision made. */
  lemma {:induction false} ClosedSessionsAreSilent(s: Session, events: seq<(Event, Env)>)
    requires s.closed && !s.poll
    ensures var s' := Run(s, events);
            s'.closed && !s'.poll && s'.log == s.log && s'.accepted == s.accepted && s'.decisions == s.decisions
    decreases |events|
  {
    if events == [] {
    } else {
      var n := |events| - 1;
      ClosedSessionsAreSilent(s, events[..n]);
      ClosedStepIsSilent(Run(s, events[..n]), events[n].0, events[n].1);
    }
  }

  /** In particular, once any run has closed its session, every longer run has sent the same. */
  lemma ClosedRunsAreSilent(requestID: Option<string>, events: seq<(Event, Env)>, more: seq<(Event, Env)>)
    requires Run(Opened(requestID), events).closed
    ensures Run(Opened(requestID), events + more).log == Run(Opened(requestID), events).log
  {
    EveryRunIsOrderly(requestID, events);
    RunConcat(Opened(requestID), events, more);
    ClosedSessionsAreSilent(Run(Opened(requestID), events), more);
  }

  lemma {:induction false} RunConcat(s: Session, events: seq<(Event, Env)>, more: seq<(Event, Env)>)
    ensures Run(s, events + more) == Run(Run(s, events), more)
    decreases |more|
  {
    if more == [] {
      assert events + more == events;
    } else {
      var n := |more| - 1;
      assert (events + more)[..|events + more| - 1] == events + more[..n];
      RunConcat(s, events, more[..n]);
    }
  }

  // ---------------------------------------------------------------------
  // The closure

  /** The variables `createReview` closes over, with the history of what they did. */
  class ReviewSession {
    var ready: bool
    var closed: bool
    var inflight: Option<Request>
    var poll: bool
    var selected: Option<View>
    var pending: seq<string>
    var sequence: nat
    var initial: Option<string>
    ghost var log: seq<Traffic>
    ghost var accepted: seq<View>
    ghost var decisions: seq<nat>

    ghost function State(): Session
      reads this
    {
      Session(ready, closed, inflight, poll, selected, pending, sequence, initial, log, accepted, decisions)
    }

    constructor (requestID: Option<string>)
      ensures State() == Opened(requestID)
    {
      ready, closed, inflight, poll, selected := false, false, None, false, None;
      pending, sequence, initial := [], 0, requestID;
      log, accepted, decisions := [], [], [];
    }

    method Stop()
      modifies this
      ensures State() == Stopped(old(State()))
    {
      closed, poll := true, false;
    }

    method SendRequest(action: Action, env: Env)
      modifies this
      ensures State() == Send(old(State()), action, env)
    {
      if closed || !ready || inflight.Some? {
        return;
      }
      if !env.allowed {
        Stop();
        return;
      }
      poll := false;
      sequence := sequence + 1;
      var request := Request(sequence, action);
      inflight := Some(request);
      if env.broken {
        Stop();
        return;
      }
      decisions := DecisionsWith(State(), action);
      log := log + [Out(request)];
    }

    method SelectRequest(id: string, env: Env)
      modifies this
      ensures State() == Choose(old(State()), id, env)
    {
      if !ready || inflight.Some? {
        initial := Some(id);
        return;
      }
      if id !in pending {
        initial := Some(id);
        SendRequest(List, env);
        return;
      }
      selected := None;
      SendRequest(Select(id), env);
    }

    /** The branches of `receive` on what was sent and what came back; false is the one that fails. */
    method Take(sent: Action, content: Content) returns (ok: bool)
      modifies this
      ensures ok == Answered(old(State()), sent, content).Some?
      ensures State() == if ok then Answered(old(State()), sent, content).value else old(State())
    {
      if content.Error? {
        selected := None;
      } else if sent.List? && content.Pending? {
        if !Acceptable(content.items) {
          return false;
        }
        pending := content.items;
        if selected.Some? && selected.value.requestID !in pending {
          selected := None;
        }
      } else if sent.Select? && content.Selected? && ValidView(content.view) && content.view.requestID == sent.id {
        selected := Some(content.view);
        accepted := accepted + [content.view];
      } else if sent.Decide? && content.Result? && (content.id == Some(sent.id) || content.unconfirmed) {
        selected := None;
      } else {
        return false;
      }
      ok := true;
    }

    method ReceiveReply(reply: Reply, env: Env)
      modifies this
      ensures State() == Receive(old(State()), reply, env)
    {
      if inflight.None? || reply.version != 1 || reply.sequence != inflight.value.sequence {
        Stop();
        return;
      }
      var sent := inflight.value;
      inflight := None;
      log := log + [In(sent.sequence)];
      var ok := Take(sent.action, reply.content);
      if !ok {
        Stop();
        return;
      }
      if initial.Some? {
        var id := initial.value;
        initial, selected := None, None;
        SendRequest(Select(id), env);
        return;
      }
      poll := true;
    }

    method OnMessage(m: Message, env: Env)
      modifies this
      ensures State() == Handle(old(State()), m, env)
    {
      if closed {
        return;
      }
      if !env.allowed {
        Stop();
        return;
      }
      if m.Ready? && !ready {
        ready := true;
        SendRequest(List, env);
        return;
      }
      if !ready || inflight.Some? {
        return;
      }
      if m.ListRequest? {
        SendRequest(List, env);
      } else if m.SelectRequest? && ValidID(m.id) && m.id in pending {
        SelectRequest(m.id, env);
      } else if m.DecideRequest? && selected.Some? && m.id == selected.value.requestID
        && m.token == selected.value.token {
        if !Savable(selected.value, m.approved, m.save) {
          return;
        }
        selected := None;
        SendRequest(Decide(m.id, m.token, m.approved, m.save), env);
      }
    }

    method On(e: Event, env: Env)
      modifies this
      ensures State() == Step(old(State()), e, env)
    {
      match e
      case Panel(m) => OnMessage(m, env);
      case Line(reply) => if !closed { ReceiveReply(reply, env); }
      case Tick => if poll { SendRequest(List, env); }
      case Notified(id) => SelectRequest(id, env);
      case Lost => Stop();
    }
  }

  /** A session fed any events, in order, ends in the state the runs above are about. */
  method Drive(requestID: Option<string>, events: seq<(Event, Env)>) returns (session: ReviewSession)
    ensures fresh(session) && session.State() == Run(Opened(requestID), events) && Inv(session.State())
  {
    session := new ReviewSession(requestID);
    for i := 0 to |events|
      invariant fresh(session) && session.State() == Run(Opened(requestID), events[..i])
    {
      session.On(events[i].0, events[i].1);
      assert events[..i + 1][..i] == events[..i];
    }
    assert events[..|events|] == events;
    EveryRunIsOrderly(requestID, events);
  }
}
