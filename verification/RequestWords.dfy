/** What is asked and what is answered, in every run of any number of clients: each request
    taken up says what its client was made for, each final answer what handleRequest
    returned for it, and that is what the client's callback gets. */
module RequestWords {
  import opened AclMessages
  import opened MessageBus
  import opened Counting
  import opened RequestProtocol
  import opened RequestTraces
  import opened RequestRoles

  /** What handleRequest returned, in order. */
  function Returned(s: System, moves: seq<Move>): seq<Message> {
    if moves == [] then []
    else
      var before, move := Play(s, moves[..|moves| - 1]), moves[|moves| - 1];
      Returned(s, moves[..|moves| - 1]) +
        if move.Answer? && before.busy.Some? && MayReturn(before.busy.value, move.response) then [move.response] else []
  }

  /** The final answers among what was sent. */
  function Finals(es: seq<Envelope>): seq<Envelope> {
    if es == [] then []
    else Finals(es[..|es| - 1]) + (if es[|es| - 1].msg.performative in ENDING then [es[|es| - 1]] else [])
  }

  lemma FinalsOne(es: seq<Envelope>, e: Envelope)
    ensures Finals(es + [e]) == Finals(es) + (if e.msg.performative in ENDING then [e] else [])
  {
    assert (es + [e])[..|es|] == es;
  }

  /** A request says what its client was made for. */
  predicate FromClient(s: System, m: Message) {
    m.sender.name in s.clients && Asks(m, s.clients[m.sender.name])
  }

  predicate Genuine(s: System) {
    && (forall m :: m in Queue(s.bus, s.server) ==> FromClient(s, m))
    && (forall m :: m in s.log.taken ==> FromClient(s, m))
  }

  /** An agreement goes to the sender of a request that was taken up. */
  ghost predicate Agreed(s: System) {
    forall e :: e in s.log.sent && e.msg.performative == Agree ==>
      exists m :: m in s.log.taken && e.to == m.sender.name && AgreesTo(e.msg, m, s.server)
  }

  /** The requests taken up, the responses and the final answers correspond. */
  predicate Answered(s: System, returned: seq<Message>) {
    && (s.busy.Some? ==> s.log.taken != [] && s.busy.value == s.log.taken[|s.log.taken| - 1])
    && |s.log.taken| == |returned| + (if s.busy.Some? then 1 else 0)
    && |Finals(s.log.sent)| == |returned|
    && forall i :: 0 <= i < |returned| ==>
         && Finals(s.log.sent)[i].to == s.log.taken[i].sender.name
         && Carries(Finals(s.log.sent)[i].msg, s.log.taken[i], returned[i], s.server)
  }

  /** Each callback has been given messages of its performative only. */
  predicate Fitting(n: Note) {
    && (n.HandleAgree? ==> n.msg.performative == Agree) && (n.HandleInform? ==> n.msg.performative == Inform)
    && (n.HandleRefuse? ==> n.msg.performative == Refuse) && (n.HandleFailure? ==> n.msg.performative == Failure)
    && (n.HandleNotUnderstood? ==> n.msg.performative == NotUnderstood)
  }

  predicate AllFitting(s: System) {
    forall who, i :: who in s.log.notes && 0 <= i < |s.log.notes[who]| ==> Fitting(s.log.notes[who][i])
  }

  // ----- a client's move -----

  lemma RequestAsks(c: Requester)
    ensures Asks(RequestMessage(c), c)
    ensures RequestMessage(c).sender.name == c.name
  {
  }

  lemma AskStep(s: System, who: string)
    requires Setup(s) && Genuine(s) && who in s.clients && !s.clients[who].done
    ensures Genuine(Next(s, Ask(who)))
  {
    hide RequestMessage, NoteOf;
    assert ClientOk(s, who);
    RequestAsks(s.clients[who]);
    var s' := Next(s, Ask(who));
    forall m | FromClient(s, m) ensures FromClient(s', m) {
    }
  }

  lemma AskFits(s: System, who: string)
    requires AllFitting(s)
    ensures AllFitting(Next(s, Ask(who)))
  {
    hide RequestMessage, RequesterNext, RequesterBus;
  }

  lemma AskKeepsLog(s: System, who: string)
    ensures var s' := Next(s, Ask(who));
      s'.busy == s.busy && s'.log.taken == s.log.taken && s'.log.sent == s.log.sent && s'.server == s.server
  {
    hide RequesterNext, RequesterBus, NoteOf, Noted;
  }

  // ----- the participant's moves -----

  lemma AgreeFits(m: Message, name: string)
    ensures AgreesTo(AgreeTo(name, m), m, name) && AgreeTo(name, m).performative == Agree
  {
  }

  lemma TakeUpStep(s: System, agree: bool, returned: seq<Message>)
    requires Setup(s) && Genuine(s) && Answered(s, returned) && s.busy.None? && Front(s.bus, s.server).Some?
    ensures Genuine(Next(s, TakeUp(agree))) && Answered(Next(s, TakeUp(agree)), returned)
  {
    hide AgreeTo, Asks, AgreesTo, Carries, Finals;
    var m := Front(s.bus, s.server).value;
    assert m in Queue(s.bus, s.server);
    AgreeFits(m, s.server);
    var agreed := ReceiveState(s, agree, m);
    var s' := Next(s, TakeUp(agree));
    FinalsOne(s.log.sent, Envelope(m.sender.name, AgreeTo(s.server, m)));
    assert s.log.sent + [] == s.log.sent;
    forall x | FromClient(s, x) ensures FromClient(s', x) {
    }
  }

  lemma TakeUpAgrees(s: System, agree: bool)
    requires Setup(s) && Agreed(s) && s.busy.None? && Front(s.bus, s.server).Some?
    ensures Agreed(Next(s, TakeUp(agree)))
  {
    hide AgreeTo, AgreesTo;
    var m := Front(s.bus, s.server).value;
    assert m in Queue(s.bus, s.server);
    AgreeFits(m, s.server);
    var agreed := ReceiveState(s, agree, m);
    var s' := Next(s, TakeUp(agree));
    forall e | e in s'.log.sent && e.msg.performative == Agree
      ensures exists x :: x in s'.log.taken && e.to == x.sender.name && AgreesTo(e.msg, x, s'.server)
    {
      if e in s.log.sent {
        var x :| x in s.log.taken && e.to == x.sender.name && AgreesTo(e.msg, x, s.server);
        assert x in s'.log.taken;
      } else {
        assert m in s'.log.taken;
      }
    }
  }

  lemma NothingToTake(s: System, agree: bool)
    requires s.busy.None? && Front(s.bus, s.server).None?
    ensures Next(s, TakeUp(agree)) == s
  {
    assert s.log.sent + [] == s.log.sent && s.log.taken + [] == s.log.taken;
  }

  lemma FinalFits(server: string, request: Message, response: Message)
    requires MayReturn(request, response)
    ensures Carries(Completed(server, request, response), request, response, server)
    ensures Completed(server, request, response).performative in ENDING
  {
  }

  lemma AnswerStep(s: System, response: Message, returned: seq<Message>)
    requires Setup(s) && Genuine(s) && Answered(s, returned) && s.busy.Some? && MayReturn(s.busy.value, response)
    ensures Genuine(Next(s, Answer(response))) && Answered(Next(s, Answer(response)), returned + [response])
  {
    hide Completed, Asks, Carries, MayReturn, Finals;
    FinalFits(s.server, s.busy.value, response);
    var s' := Next(s, Answer(response));
    FinalsOne(s.log.sent, Envelope(s.busy.value.sender.name, Completed(s.server, s.busy.value, response)));
    forall x | FromClient(s, x) ensures FromClient(s', x) {
    }
  }

  lemma AnswerAgrees(s: System, response: Message)
    requires Agreed(s) && s.busy.Some? && MayReturn(s.busy.value, response)
    ensures Agreed(Next(s, Answer(response)))
  {
    hide Completed, AgreesTo, MayReturn;
    FinalFits(s.server, s.busy.value, response);
  }

  lemma PlainMoves(s: System, move: Move)
    requires move.TakeUp? || move.Answer?
    ensures Next(s, move).log.notes == s.log.notes
  {
    hide AgreeTo, Completed, ReceiveBus, RespondBus;
  }

  // ----- every run -----

  ghost predicate Worded(s: System, returned: seq<Message>) {
    Genuine(s) && Answered(s, returned) && Agreed(s) && AllFitting(s)
  }

  lemma StartWorded(server: string, clients: map<string, Requester>)
    ensures Worded(Start(server, clients), [])
  {
  }

  lemma StepWorded(s: System, move: Move, returned: seq<Message>)
    requires Inv(s) && Worded(s, returned)
    ensures Worded(Next(s, move),
      returned + if move.Answer? && s.busy.Some? && MayReturn(s.busy.value, move.response) then [move.response] else [])
  {
    hide Inv, Genuine, Answered, Agreed, AllFitting, MayReturn, Next;
    SetupOf(s);
    assert returned + [] == returned;
    match move {
      case Ask(who) =>
        AskFits(s, who);
        AskKeepsLog(s, who);
        SameLog(s, Next(s, move), returned);
        if who in s.clients && !s.clients[who].done {
          AskStep(s, who);
        } else {
          NoAsk(s, who);
        }
      case TakeUp(agree) =>
        PlainMoves(s, move);
        SameNotes(s, Next(s, move));
        if s.busy.Some? {
          BusyTakes(s, agree);
        } else if Front(s.bus, s.server).None? {
          NothingToTake(s, agree);
        } else {
          TakeUpStep(s, agree, returned);
          TakeUpAgrees(s, agree);
        }
      case Answer(response) =>
        PlainMoves(s, move);
        SameNotes(s, Next(s, move));
        if s.busy.Some? && MayReturn(s.busy.value, response) {
          AnswerStep(s, response, returned);
          AnswerAgrees(s, response);
        } else {
          NoAnswer(s, response);
        }
    }
  }

  lemma SameLog(s: System, s': System, returned: seq<Message>)
    requires s'.busy == s.busy && s'.log.taken == s.log.taken && s'.log.sent == s.log.sent && s'.server == s.server
    ensures Answered(s, returned) ==> Answered(s', returned)
    ensures Agreed(s) ==> Agreed(s')
  {
    hide Carries, AgreesTo;
  }

  lemma SameNotes(s: System, s': System)
    requires s'.log.notes == s.log.notes && AllFitting(s)
    ensures AllFitting(s')
  {
  }

  lemma NoAsk(s: System, who: string)
    requires who !in s.clients || s.clients[who].done
    ensures Next(s, Ask(who)) == s
  {
  }

  lemma BusyTakes(s: System, agree: bool)
    requires s.busy.Some?
    ensures Next(s, TakeUp(agree)) == s
  {
  }

  lemma NoAnswer(s: System, response: Message)
    requires s.busy.None? || !MayReturn(s.busy.value, response)
    ensures Next(s, Answer(response)) == s
  {
  }

  lemma {:induction false} PlayWorded(server: string, clients: map<string, Requester>, moves: seq<Move>)
    requires Legal(server, clients)
    ensures Worded(Play(Start(server, clients), moves), Returned(Start(server, clients), moves))
  {
    hide Inv, Worded, Next, Start, Legal, MayReturn;
    if moves == [] {
      StartWorded(server, clients);
    } else {
      var n := |moves| - 1;
      PlayWorded(server, clients, moves[..n]);
      StartInv(server, clients);
      PlayKeepsInv(Start(server, clients), moves[..n]);
      StepWorded(Play(Start(server, clients), moves[..n]), moves[n], Returned(Start(server, clients), moves[..n]));
    }
  }

  /** In every state of every run: the requests that were taken up say what their clients
      were made for; to the i-th of them was sent, as the i-th final answer and to who
      asked, what handleRequest returned for it; every agreement refers to a request that
      was taken up. */
  lemma WordsExchanged(server: string, clients: map<string, Requester>, moves: seq<Move>)
    requires Legal(server, clients)
    ensures var s := Play(Start(server, clients), moves);
      var returned, finals := Returned(Start(server, clients), moves), Finals(s.log.sent);
      && (forall m :: m in s.log.taken ==> m.sender.name in s.clients && Asks(m, s.clients[m.sender.name]))
      && |s.log.taken| == |returned| + (if s.busy.Some? then 1 else 0) && |finals| == |returned|
      && (forall i :: 0 <= i < |returned| ==>
            finals[i].to == s.log.taken[i].sender.name && Carries(finals[i].msg, s.log.taken[i], returned[i], server))
      && (forall e :: e in s.log.sent && e.msg.performative == Agree ==>
            exists m :: m in s.log.taken && e.to == m.sender.name && AgreesTo(e.msg, m, server))
  {
    hide Play, Start, Finals, Carries, AgreesTo, Asks, Returned;
    PlayWorded(server, clients, moves);
    assert Play(Start(server, clients), moves).server == server by { ServerName(server, clients, moves); }
  }

  lemma ServerName(server: string, clients: map<string, Requester>, moves: seq<Move>)
    ensures Play(Start(server, clients), moves).server == server
  {
    NamesStay(Start(server, clients), moves);
  }

  lemma LastHeard(notes: seq<Note>)
    requires notes != [] && !notes[|notes| - 1].Silent? && !notes[|notes| - 1].HandleTimeout?
    ensures notes[|notes| - 1].msg in Heard(notes)
  {
  }

  lemma {:induction false} FinalsMember(es: seq<Envelope>, e: Envelope)
    requires e in es && e.msg.performative in ENDING
    ensures exists i :: 0 <= i < |Finals(es)| && Finals(es)[i] == e
  {
    var n := |es| - 1;
    assert es == es[..n] + [es[n]];
    if e in es[..n] {
      FinalsMember(es[..n], e);
      var i :| 0 <= i < |Finals(es[..n])| && Finals(es[..n])[i] == e;
      assert Finals(es)[i] == e;
    } else {
      assert Finals(es)[|Finals(es)| - 1] == e;
    }
  }

  lemma {:induction false} MailMember(es: seq<Envelope>, p: string, m: Message)
    requires m in Mail(es, p)
    ensures Envelope(p, m) in es
    decreases |es|
  {
    if es != [] {
      hide Mail;
      MailStep(es, p);
      if m in Mail(es[1..], p) {
        MailMember(es[1..], p, m);
      }
    }
  }

  /** In every state of every run: when a client has ended other than by a timeout, the
      last of its callbacks was the one for the performative of what handleRequest
      returned for this client's own request, and was given what it returned. */
  lemma ResponseArrives(server: string, clients: map<string, Requester>, moves: seq<Move>, who: string)
    requires Legal(server, clients) && who in clients
    ensures var s := Play(Start(server, clients), moves);
      && who in s.clients && who in s.log.notes
      && var notes := s.log.notes[who];
      s.clients[who].done ==>
        && Ended(notes)
        && var last := notes[|notes| - 1];
        last.HandleTimeout? ||
          (Fitting(last) && Terminal(last)
            && exists i :: 0 <= i < |Returned(Start(server, clients), moves)| && i < |s.log.taken|
                 && s.log.taken[i].sender.name == who && Asks(s.log.taken[i], s.clients[who])
                 && Carries(last.msg, s.log.taken[i], Returned(Start(server, clients), moves)[i], server))
  {
    hide Play, Start, Finals, Carries, AgreesTo, Asks, Returned, Heard, Mail, Legal, Fitting;
    ClientTrace(server, clients, moves, who);
    WordsExchanged(server, clients, moves);
    PlayWorded(server, clients, moves);
    var s := Play(Start(server, clients), moves);
    var notes := s.log.notes[who];
    if s.clients[who].done && !notes[|notes| - 1].HandleTimeout? {
      var last := notes[|notes| - 1];
      LastHeard(notes);
      assert last.msg in Heard(notes) + Queue(s.bus, who);
      MailMember(s.log.sent, who, last.msg);
      EndingIsFinal(last);
      FinalsMember(s.log.sent, Envelope(who, last.msg));
    }
  }

  lemma EndingIsFinal(n: Note)
    requires Fitting(n) && Terminal(n) && !n.HandleTimeout?
    ensures n.msg.performative in ENDING
  {
  }
}
