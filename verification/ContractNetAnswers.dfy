/** The whole Contract Net, word by word: in every run each role does what it does on its
    own, what one is sent is what the other has sent, and the result that executeTask
    returned reaches the callback of its performative. */
module ContractNetAnswers {
  import opened AclMessages
  import opened MessageBus
  import opened Counting
  import opened ContractNet
  import opened ContractNetSystem
  import opened ContractNetLaws
  import opened ContractNetRoles

  // ----- the part of a run that each role sees -----

  function InitiatorTurns(s: System, moves: seq<Move>): seq<Turn> {
    if moves == [] then []
    else
      var before, move := Play(s, moves[..|moves| - 1]), moves[|moves| - 1];
      InitiatorTurns(s, moves[..|moves| - 1]) +
        if move.Initiate? && Enabled(before, move) then [Turn(move.at, Front(before.bus, before.ini.name))] else []
  }

  function ParticipantTurns(s: System, moves: seq<Move>, p: string): seq<Go> {
    if moves == [] then []
    else
      var before, move := Play(s, moves[..|moves| - 1]), moves[|moves| - 1];
      ParticipantTurns(s, moves[..|moves| - 1], p) +
        if move.Participate? && move.who == p && Enabled(before, move) then [Go(Front(before.bus, p), move.reply)] else []
  }

  function InitiatorOf(name: string, cfp: Message, participants: seq<string>, moves: seq<Move>): Record {
    ActedAll(New(name, cfp, participants), InitiatorTurns(Start(name, cfp, participants), moves))
  }

  function ParticipantOf(name: string, cfp: Message, participants: seq<string>, moves: seq<Move>, p: string): Dossier {
    WentAll(NewDossier(p), ParticipantTurns(Start(name, cfp, participants), moves, p))
  }

  /** The two histories are those of the roles in state s, and each role has taken, in
      order, what the other has sent it, except for what is still queued. */
  predicate Tied(s: System, r: Record, d: Dossier, p: string) {
    && p in s.parts && r.ini == s.ini && d.part == s.parts[p]
    && r.sent == s.log.asked && r.selected == s.log.selected && r.refusals == s.log.refusals
    && d.early + d.later + Queue(s.bus, p) == Mail(r.sent, p)
    && MessagesOf(r.offers, p) + MessagesOf(r.reports, p) + MessagesOf(Queue(s.bus, s.ini.name), p) == Mails(d.sent)
  }

  lemma StartTied(name: string, cfp: Message, participants: seq<string>, p: string)
    requires p in participants
    ensures Tied(Start(name, cfp, participants), New(name, cfp, participants), NewDossier(p), p)
  {
  }

  lemma {:induction false} MailConcat(a: seq<Envelope>, b: seq<Envelope>, p: string)
    ensures Mail(a + b, p) == Mail(a, p) + Mail(b, p)
    decreases |b|
  {
    hide Mail;
    if b == [] {
      assert a + b == a;
      NoMail(p);
    } else {
      var n := |b| - 1;
      assert a + b == (a + b[..n]) + [b[n]] && b == b[..n] + [b[n]];
      MailConcat(a, b[..n], p);
      MailAppend(a + b[..n], b[n], p);
      MailAppend(b[..n], b[n], p);
    }
  }

  lemma NoMail(p: string)
    ensures Mail([], p) == []
  {
  }

  lemma {:induction false} MessagesConcat(a: seq<Message>, b: seq<Message>, p: string)
    ensures MessagesOf(a + b, p) == MessagesOf(a, p) + MessagesOf(b, p)
    decreases |b|
  {
    hide MessagesOf;
    if b == [] {
      assert a + b == a;
      NoMessages(p);
    } else {
      var n := |b| - 1;
      assert a + b == (a + b[..n]) + [b[n]] && b == b[..n] + [b[n]];
      MessagesConcat(a, b[..n], p);
      MessagesOfAppend(a + b[..n], b[n], p);
      MessagesOfAppend(b[..n], b[n], p);
    }
  }

  lemma NoMessages(p: string)
    ensures MessagesOf([], p) == []
  {
  }

  lemma MailNowhere(es: seq<Envelope>, p: string)
    requires forall e :: e in es ==> e.to != p
    ensures Mail(es, p) == []
  {
    if es != [] {
      assert es[0] in es;
      MailNowhere(es[1..], p);
    }
  }

  /** The queues after an action of the initiator. */
  lemma InitiatorQueues(s: System, at: Moment, q: string)
    requires Inv(s) && !s.ini.done
    ensures Queue(Next(s, Initiate(at)).bus, q) ==
      (if q == s.ini.name && Polls(s.ini, at) && Queue(s.bus, q) != [] then Queue(s.bus, q)[1..] else Queue(s.bus, q))
      + (if q == s.ini.name then [] else Mail(Sends(s.ini, at), q))
  {
    hide Inv, Sends, InitiatorNext, NoteOf, Mail, Polls;
    var bus := if Polls(s.ini, at) then Polled(s.bus, s.ini.name) else s.bus;
    SendAllQueue(bus, Sends(s.ini, at), q);
    if q == s.ini.name {
      SendsAsked(s, at);
      InvGlobal(s);
      MailNowhere(Sends(s.ini, at), q);
    }
  }

  /** What the action does to the initiator's history. */
  lemma InitiatorHistory(s: System, r: Record, at: Moment)
    requires Inv(s) && !s.ini.done && r.ini == s.ini && r.sent == s.log.asked && r.selected == s.log.selected
      && r.refusals == s.log.refusals
    ensures var s', r' := Next(s, Initiate(at)), Acted(r, Turn(at, Front(s.bus, s.ini.name)));
      && r'.ini == s'.ini && r'.sent == s'.log.asked && r'.selected == s'.log.selected && r'.refusals == s'.log.refusals
      && r'.sent == r.sent + Sends(s.ini, at)
  {
    hide Inv, Sends, InitiatorNext, InitiatorBus;
    assert s.log.refusals + [] == s.log.refusals;
  }

  /** A message that moves from the queue to what has been taken. */
  lemma MovedMessage(offers: seq<Message>, reports: seq<Message>, q: seq<Message>, first: bool, p: string)
    requires q != [] && (first ==> reports == [])
    ensures MessagesOf(if first then offers + [q[0]] else offers, p) + MessagesOf(if first then reports else reports + [q[0]], p)
      + MessagesOf(q[1..], p) == MessagesOf(offers, p) + MessagesOf(reports, p) + MessagesOf(q, p)
  {
    hide MessagesOf;
    MessagesOfHead(q[0], q[1..], p);
    assert [q[0]] + q[1..] == q;
    NoMessages(p);
    MessagesOfAppend(if first then offers else reports, q[0], p);
  }

  lemma TakenState(s: System, r: Record, at: Moment)
    requires !s.ini.done && r.ini == s.ini
    ensures var r', q := Acted(r, Turn(at, Front(s.bus, s.ini.name))), Queue(s.bus, s.ini.name);
      if Polls(s.ini, at) && q != [] then
        && (s.ini.phase == WaitingProposals || s.ini.phase == WaitingResults)
        && r'.offers == (if s.ini.phase == WaitingProposals then r.offers + [q[0]] else r.offers)
        && r'.reports == (if s.ini.phase == WaitingProposals then r.reports else r.reports + [q[0]])
      else r'.offers == r.offers && r'.reports == r.reports
  {
    hide Sends, InitiatorNext, NoteOf;
    NothingAdded(r.offers);
    NothingAdded(r.reports);
  }

  lemma TakenByInitiator(s: System, r: Record, at: Moment, p: string)
    requires Inv(s) && !s.ini.done && r.ini == s.ini
    requires r.ini.phase == WaitingProposals ==> r.reports == []
    ensures var s', r' := Next(s, Initiate(at)), Acted(r, Turn(at, Front(s.bus, s.ini.name)));
      MessagesOf(r'.offers, p) + MessagesOf(r'.reports, p) + MessagesOf(Queue(s'.bus, s.ini.name), p)
      == MessagesOf(r.offers, p) + MessagesOf(r.reports, p) + MessagesOf(Queue(s.bus, s.ini.name), p)
  {
    hide Inv, Acted, MessagesOf, Next, Polls;
    var q := Queue(s.bus, s.ini.name);
    InitiatorQueues(s, at, s.ini.name);
    TakenState(s, r, at);
    NothingAdded(q);
    if Polls(s.ini, at) && q != [] {
      NothingAdded(q[1..]);
      MovedMessage(r.offers, r.reports, q, s.ini.phase == WaitingProposals, p);
    }
  }

  lemma InitiateTied(s: System, r: Record, d: Dossier, p: string, at: Moment)
    requires Inv(s) && !s.ini.done && Tied(s, r, d, p)
    requires r.ini.phase == WaitingProposals ==> r.reports == []
    ensures Tied(Next(s, Initiate(at)), Acted(r, Turn(at, Front(s.bus, s.ini.name))), d, p)
  {
    hide Inv, Next, Acted, Sends, MessagesOf, Mail, Mails;
    InitiatorHistory(s, r, at);
    TakenByInitiator(s, r, at, p);
    SetupParts(s, p);
    InitiatorQueues(s, at, p);
    MailConcat(r.sent, Sends(s.ini, at), p);
    InitiatorKeepsParts(s, at);
    assert d.early + d.later + (Queue(s.bus, p) + Mail(Sends(s.ini, at), p))
        == d.early + d.later + Queue(s.bus, p) + Mail(Sends(s.ini, at), p);
  }

  lemma InitiatorKeepsParts(s: System, at: Moment)
    ensures Next(s, Initiate(at)).parts == s.parts && Next(s, Initiate(at)).ini.name == s.ini.name
  {
    hide NoteOf, Sends, InitiatorBus;
  }

  /** A participant's own move: what it takes, and what it sends. */
  lemma WentTakes(s: System, d: Dossier, p: string, reply: Message)
    requires p in s.parts && d.part == s.parts[p] && !d.part.done
    requires !d.part.deciding ==> d.later == []
    ensures var d', q := Went(d, Go(Front(s.bus, p), reply)), Queue(s.bus, p);
      && d'.early + d'.later + (if q == [] then q else q[1..]) == d.early + d.later + q
      && d'.sent == d.sent + ParticipantSends(d.part, Front(s.bus, p), reply)
      && d'.part == ParticipantNext(d.part, Front(s.bus, p), reply)
  {
    hide ParticipantSends, ParticipantNext, Prepares, Executes;
    NothingAdded(d.early);
    NothingAdded(d.later);
  }

  lemma OwnMoveState(s: System, p: string, reply: Message)
    requires Inv(s) && Enabled(s, Participate(p, reply))
    ensures var s', q := Next(s, Participate(p, reply)), Queue(s.bus, p);
      && s'.parts == s.parts[p := ParticipantNext(s.parts[p], Front(s.bus, p), reply)]
      && s'.ini == s.ini && s'.log.asked == s.log.asked && s'.log.selected == s.log.selected && s'.log.refusals == s.log.refusals
      && Queue(s'.bus, p) == (if q == [] then q else q[1..])
      && Queue(s'.bus, s.ini.name)
         == Queue(s.bus, s.ini.name) + Mails(ParticipantSends(s.parts[p], Front(s.bus, p), reply))
  {
    hide Inv, ParticipantNext, ParticipantBus, ParticipantSends, Mails;
    ConversationParts(s, p);
    SetupParts(s, p);
    ParticipantQueues(s, p, reply, p);
    ParticipantQueues(s, p, reply, s.ini.name);
  }

  lemma ParticipateTied(s: System, r: Record, d: Dossier, p: string, reply: Message)
    requires Inv(s) && Enabled(s, Participate(p, reply)) && Tied(s, r, d, p)
    requires !d.part.deciding ==> d.later == []
    ensures Tied(Next(s, Participate(p, reply)), r, Went(d, Go(Front(s.bus, p), reply)), p)
  {
    hide Inv, MessagesOf, Mail, Mails, ParticipantNext, ParticipantSends, Next, Went, Queue;
    OwnMoveState(s, p, reply);
    WentTakes(s, d, p, reply);
    var es := ParticipantSends(s.parts[p], Front(s.bus, p), reply);
    MailsConcat(d.sent, es);
    MessagesConcat(Queue(s.bus, s.ini.name), Mails(es), p);
    assert s.parts[p].name == p by { ConversationParts(s, p); }
    OwnMails(s, p, reply);
    var a, b, c := MessagesOf(r.offers, p), MessagesOf(r.reports, p), MessagesOf(Queue(s.bus, s.ini.name), p);
    assert a + b + (c + Mails(es)) == a + b + c + Mails(es);
  }

  lemma MailsConcat(a: seq<Envelope>, b: seq<Envelope>)
    ensures Mails(a + b) == Mails(a) + Mails(b)
  {
    if a == [] {
      assert a + b == b;
    } else {
      assert (a + b)[1..] == a[1..] + b;
      MailsConcat(a[1..], b);
    }
  }

  /** What a participant sends is in its own name. */
  lemma OwnMails(s: System, p: string, reply: Message)
    requires p in s.parts && s.parts[p].name == p
    ensures var ms := Mails(ParticipantSends(s.parts[p], Front(s.bus, p), reply)); MessagesOf(ms, p) == ms
    ensures var ms := Mails(ParticipantSends(s.parts[p], Front(s.bus, p), reply)); forall q :: q != p ==> MessagesOf(ms, q) == []
  {
    var es := ParticipantSends(s.parts[p], Front(s.bus, p), reply);
    if es != [] {
      assert es == [es[0]] && es[1..] == [];
      assert Mails(es) == [es[0].msg] && Mails(es)[1..] == [];
    }
  }

  /** Another participant's move. */
  lemma OthersTied(s: System, r: Record, d: Dossier, p: string, who: string, reply: Message)
    requires Inv(s) && Enabled(s, Participate(who, reply)) && Tied(s, r, d, p) && who != p
    ensures Tied(Next(s, Participate(who, reply)), r, d, p)
  {
    hide Inv, MessagesOf, Mail, ParticipantNext, ParticipantBus, ParticipantSends;
    ConversationParts(s, who);
    SetupParts(s, who);
    SetupParts(s, p);
    ParticipantQueues(s, who, reply, p);
    ParticipantQueues(s, who, reply, s.ini.name);
    var es := ParticipantSends(s.parts[who], Front(s.bus, who), reply);
    MessagesConcat(Queue(s.bus, s.ini.name), Mails(es), p);
    OwnMails(s, who, reply);
    assert MessagesOf(Queue(s.bus, s.ini.name), p) + [] == MessagesOf(Queue(s.bus, s.ini.name), p);
  }

  lemma {:induction false} RunTied(name: string, cfp: Message, participants: seq<string>, moves: seq<Move>, p: string)
    requires Legal(name, cfp, participants) && p in participants
    ensures Tied(Play(Start(name, cfp, participants), moves), InitiatorOf(name, cfp, participants, moves),
                 ParticipantOf(name, cfp, participants, moves, p), p)
  {
    hide Tied, Start, New, Next, Acted, Went, Legal, Sound, Served, Dispatched, Counted;
    var start := Start(name, cfp, participants);
    if moves == [] {
      StartTied(name, cfp, participants, p);
    } else {
      var n := |moves| - 1;
      RunTied(name, cfp, participants, moves[..n], p);
      RunIsSound(name, cfp, participants, moves[..n]);
      var s := Play(start, moves[..n]);
      assert Inv(s) by { SoundInv(s); }
      var r, d := InitiatorOf(name, cfp, participants, moves[..n]), ParticipantOf(name, cfp, participants, moves[..n], p);
      OneTurnMore(name, cfp, participants, moves, p);
      TiedParts(s, r, d, p);
      if !Enabled(s, moves[n]) {
        DisabledStays(s, moves[n]);
      } else if moves[n].Initiate? {
        RunCounts(name, cfp, participants, InitiatorTurns(start, moves[..n]));
        NoReportsYet(r, SomeExpired(InitiatorTurns(start, moves[..n])));
        InitiateTied(s, r, d, p, moves[n].at);
      } else if moves[n].who == p {
        ParticipantExact(p, ParticipantTurns(start, moves[..n], p));
        NothingLater(d);
        ParticipateTied(s, r, d, p, moves[n].reply);
      } else {
        OthersTied(s, r, d, p, moves[n].who, moves[n].reply);
      }
    }
  }

  lemma SoundInv(s: System)
    requires Sound(s)
    ensures Inv(s)
  {
    hide Inv;
  }

  lemma TiedParts(s: System, r: Record, d: Dossier, p: string)
    requires Tied(s, r, d, p)
    ensures p in s.parts && r.ini == s.ini && d.part == s.parts[p]
  {
  }

  lemma DisabledStays(s: System, move: Move)
    requires !Enabled(s, move)
    ensures Next(s, move) == s
  {
  }

  lemma NoReportsYet(r: Record, expired: bool)
    requires Counted(r, expired)
    ensures r.ini.phase == WaitingProposals ==> r.reports == []
  {
  }

  lemma NothingLater(d: Dossier)
    requires Served(d)
    ensures !d.part.deciding ==> d.later == []
  {
  }

  lemma OneTurnMore(name: string, cfp: Message, participants: seq<string>, moves: seq<Move>, p: string)
    requires moves != []
    ensures var n := |moves| - 1; var s := Play(Start(name, cfp, participants), moves[..n]);
      && InitiatorOf(name, cfp, participants, moves) ==
           (if moves[n].Initiate? && Enabled(s, moves[n])
            then Acted(InitiatorOf(name, cfp, participants, moves[..n]), Turn(moves[n].at, Front(s.bus, s.ini.name)))
            else InitiatorOf(name, cfp, participants, moves[..n]))
      && ParticipantOf(name, cfp, participants, moves, p) ==
           (if moves[n].Participate? && moves[n].who == p && Enabled(s, moves[n])
            then Went(ParticipantOf(name, cfp, participants, moves[..n], p), Go(Front(s.bus, p), moves[n].reply))
            else ParticipantOf(name, cfp, participants, moves[..n], p))
  {
    hide Start, New, Acted, Went, Next, Enabled;
    var n := |moves| - 1;
    var start := Start(name, cfp, participants);
    var s := Play(start, moves[..n]);
    var ts, gs := InitiatorTurns(start, moves[..n]), ParticipantTurns(start, moves[..n], p);
    assert ts + [] == ts && gs + [] == gs;
    OneTurn(New(name, cfp, participants), ts, Turn(if moves[n].Initiate? then moves[n].at else Moment("", false, []), Front(s.bus, s.ini.name)));
    OneGo(NewDossier(p), gs, Go(Front(s.bus, p), if moves[n].Participate? then moves[n].reply else cfp));
  }

  lemma OneTurn(r: Record, turns: seq<Turn>, turn: Turn)
    ensures ActedAll(r, turns + [turn]) == Acted(ActedAll(r, turns), turn)
  {
    assert (turns + [turn])[..|turns|] == turns;
  }

  lemma OneGo(d: Dossier, gos: seq<Go>, go: Go)
    ensures WentAll(d, gos + [go]) == Went(WentAll(d, gos), go)
  {
    assert (gos + [go])[..|gos|] == gos;
  }

  // ----- the results, and what the callbacks may return -----

  /** The two callbacks for results have had what the log says was handled. */
  ghost predicate Handled(s: System, r: Record, p: string) {
    && r.ini == s.ini
    && forall kinds :: Count(s.log.results, p, kinds) == Count(r.informs, p, kinds) + Count(r.failures, p, kinds)
  }

  lemma InitiateHandled(s: System, r: Record, p: string, at: Moment)
    requires !s.ini.done && Handled(s, r, p)
    ensures Handled(Next(s, Initiate(at)), Acted(r, Turn(at, Front(s.bus, s.ini.name))), p)
  {
    hide Sends, InitiatorNext, InitiatorBus, Count;
    var note := NoteOf(s.ini, Seen(s.ini, s.bus, at));
    NothingAdded(r.informs);
    NothingAdded(r.failures);
    forall kinds ensures var r' := Acted(r, Turn(at, Front(s.bus, s.ini.name)));
      Count(Next(s, Initiate(at)).log.results, p, kinds) == Count(r'.informs, p, kinds) + Count(r'.failures, p, kinds)
    {
      if note.HandleInform? || note.HandleFailure? {
        CountOne(s.log.results, note.msg, p, kinds);
        CountOne(r.informs, note.msg, p, kinds);
        CountOne(r.failures, note.msg, p, kinds);
      }
    }
  }

  /** A proposal or a refusal first, a result second. */
  predicate Allowed(d: Dossier) {
    && (d.replies != [] ==> d.replies[0].performative == Propose || d.replies[0].performative == Refuse)
    && (|d.replies| > 1 ==> d.replies[1].performative == Inform || d.replies[1].performative == Failure)
  }

  lemma WentAllowed(d: Dossier, go: Go)
    requires Served(d) && Allowed(d) && !d.part.done && MayReturn(d.part, go.reply)
    ensures Allowed(Went(d, go))
  {
    hide Picked, CfpsAmong, Answers, ParticipantSends, ParticipantNext;
    MorePicked(d.later, d.part.convId);
  }

  lemma MorePicked(q: seq<Message>, conv: string)
    ensures |Picked(q, conv, {AcceptProposal})| <= |Picked(q, conv, VERDICTS)|
  {
    FewerPicked(q, conv);
  }

  lemma {:induction false} RunHandled(name: string, cfp: Message, participants: seq<string>, moves: seq<Move>, p: string)
    requires Legal(name, cfp, participants) && p in participants
    ensures Handled(Play(Start(name, cfp, participants), moves), InitiatorOf(name, cfp, participants, moves), p)
    ensures Allowed(ParticipantOf(name, cfp, participants, moves, p))
  {
    hide Tied, Handled, Allowed, Start, New, Next, Acted, Went, Legal, Served;
    var start := Start(name, cfp, participants);
    if moves == [] {
      StartHandled(name, cfp, participants, p);
    } else {
      var n := |moves| - 1;
      RunHandled(name, cfp, participants, moves[..n], p);
      RunTied(name, cfp, participants, moves[..n], p);
      var s := Play(start, moves[..n]);
      var r, d := InitiatorOf(name, cfp, participants, moves[..n]), ParticipantOf(name, cfp, participants, moves[..n], p);
      OneTurnMore(name, cfp, participants, moves, p);
      TiedParts(s, r, d, p);
      if !Enabled(s, moves[n]) {
        DisabledStays(s, moves[n]);
      } else if moves[n].Initiate? {
        InitiateHandled(s, r, p, moves[n].at);
      } else {
        OthersHandled(s, r, p, moves[n].who, moves[n].reply);
        if moves[n].who == p {
          ParticipantExact(p, ParticipantTurns(start, moves[..n], p));
          WentAllowed(d, Go(Front(s.bus, p), moves[n].reply));
        }
      }
    }
  }

  lemma StartHandled(name: string, cfp: Message, participants: seq<string>, p: string)
    ensures Handled(Start(name, cfp, participants), New(name, cfp, participants), p) && Allowed(NewDossier(p))
  {
  }

  lemma OthersHandled(s: System, r: Record, p: string, who: string, reply: Message)
    requires Handled(s, r, p) && Enabled(s, Participate(who, reply))
    ensures Handled(Next(s, Participate(who, reply)), r, p)
  {
    hide ParticipantNext, ParticipantBus, ParticipantSends, Count;
  }

  // ----- from the messages to the words -----

  lemma {:induction false} MailMember(es: seq<Envelope>, p: string, m: Message)
    requires m in Mail(es, p)
    ensures exists i :: 0 <= i < |es| && es[i] == Envelope(p, m)
    decreases |es|
  {
    hide Mail;
    if es == [] {
      NoMail(p);
    } else {
      MailStep(es, p);
      if es[0] == Envelope(p, m) {
      } else {
        MailMember(es[1..], p, m);
        var i :| 0 <= i < |es[1..]| && es[1..][i] == Envelope(p, m);
        assert es[i + 1] == Envelope(p, m);
      }
    }
  }

  lemma MessageMember(q: seq<Message>, p: string, m: Message)
    ensures m in MessagesOf(q, p) <==> m in q && m.sender.name == p
  {
  }

  lemma PickedMember(q: seq<Message>, conv: string, kinds: set<Performative>, m: Message)
    ensures m in Picked(q, conv, kinds) <==> m in q && m.conversationId == conv && m.performative in kinds
  {
  }

  lemma CfpsMember(q: seq<Message>, m: Message)
    ensures m in CfpsAmong(q) <==> m in q && m.performative == Cfp
  {
  }

  lemma MessagesCount(q: seq<Message>, p: string, kinds: set<Performative>)
    requires forall m :: m in q ==> m.performative in kinds
    ensures |MessagesOf(q, p)| == Count(q, p, kinds)
  {
    if q != [] {
      assert q[0] in q && forall m :: m in q[1..] ==> m in q;
      MessagesCount(q[1..], p, kinds);
    }
  }

  lemma MailsMember(es: seq<Envelope>, m: Message)
    ensures m in Mails(es) <==> exists i :: 0 <= i < |es| && es[i].msg == m
  {
    if es != [] {
      MailsMember(es[1..], m);
      if i :| 0 <= i < |es| && es[i].msg == m && i > 0 {
        assert es[1..][i - 1].msg == m;
      }
      if i :| 0 <= i < |es[1..]| && es[1..][i].msg == m {
        assert es[i + 1].msg == m;
      }
    }
  }

  /** A message the initiator has taken from p is one of the two that p has sent. */
  lemma TakenWasSent(s: System, r: Record, d: Dossier, p: string, m: Message)
    requires Tied(s, r, d, p) && (m in r.offers || m in r.reports) && m.sender.name == p
    ensures exists i :: 0 <= i < |d.sent| && d.sent[i].msg == m
  {
    hide MessagesOf, Mails, Mail;
    MessageMember(r.offers, p, m);
    MessageMember(r.reports, p, m);
    assert m in MessagesOf(r.offers, p) + MessagesOf(r.reports, p) + MessagesOf(Queue(s.bus, s.ini.name), p);
    MailsMember(d.sent, m);
  }

  /** A message p has taken is one that the initiator has sent it. */
  lemma ReadWasSent(s: System, r: Record, d: Dossier, p: string, m: Message)
    requires Tied(s, r, d, p) && (m in d.early || m in d.later)
    ensures exists i :: 0 <= i < |r.sent| && r.sent[i] == Envelope(p, m)
  {
    hide MessagesOf, Mails, Mail;
    assert m in d.early + d.later + Queue(s.bus, p);
    MailMember(r.sent, p, m);
  }

  /** In every state of every run, for every participant: what prepareProposal is given
      is the user's CFP, and what executeTask is given is an ACCEPT that refers to this
      participant's own proposal. */
  lemma QuestionsArrive(name: string, cfp: Message, participants: seq<string>, moves: seq<Move>, p: string)
    requires Legal(name, cfp, participants) && p in participants
    ensures var r, d := InitiatorOf(name, cfp, participants, moves), ParticipantOf(name, cfp, participants, moves, p);
      && |d.prepared| <= 1 && |d.executed| <= |d.prepared| && |d.replies| == |d.prepared| + |d.executed|
      && (d.prepared != [] ==> CarriesCfp(d.prepared[0], cfp, name, r.ini.convId))
      && (d.executed != [] ==>
            && d.executed[0].performative == AcceptProposal && d.executed[0].conversationId == r.ini.convId
            && p in r.selected && d.executed[0].inReplyTo == d.replies[0].replyWith)
  {
    hide Tied, Allowed, Legal, Served, Spoke, CarriesCfp, Dispatched, Start, Play, InitiatorOf, ParticipantOf, CfpsAmong, Picked, Answers;
    var s := Play(Start(name, cfp, participants), moves);
    var r, d := InitiatorOf(name, cfp, participants, moves), ParticipantOf(name, cfp, participants, moves, p);
    RunTied(name, cfp, participants, moves, p);
    RunHandled(name, cfp, participants, moves, p);
    RolesOfRun(name, cfp, participants, moves, p);
    assert cfp.performative == Cfp by { LegalCfp(name, cfp, participants); }
    ServedParts(d);
    if d.prepared != [] {
      CfpArrives(s, r, d, p, cfp);
    }
    if d.executed != [] {
      AcceptArrives(s, r, d, p, cfp);
    }
  }

  /** What the roles do on their own, they do in the run. */
  lemma RolesOfRun(name: string, cfp: Message, participants: seq<string>, moves: seq<Move>, p: string)
    ensures var r, d := InitiatorOf(name, cfp, participants, moves), ParticipantOf(name, cfp, participants, moves, p);
      Spoke(r, cfp) && r.ini.name == name && Dispatched(r) && Served(d)
  {
    hide New, Acted, NewDossier, Went, Served, Spoke, Dispatched, Counted, Start;
    ParticipantExact(p, ParticipantTurns(Start(name, cfp, participants), moves, p));
    SendsExact(name, cfp, participants, InitiatorTurns(Start(name, cfp, participants), moves));
    RunCounts(name, cfp, participants, InitiatorTurns(Start(name, cfp, participants), moves));
  }

  lemma LegalCfp(name: string, cfp: Message, participants: seq<string>)
    requires Legal(name, cfp, participants)
    ensures cfp.performative == Cfp
  {
  }

  lemma ServedParts(d: Dossier)
    requires Served(d)
    ensures |d.prepared| <= 1 && |d.executed| <= |d.prepared| && |d.replies| == |d.sent| == |d.prepared| + |d.executed|
    ensures d.prepared == CfpsAmong(d.early)
    ensures d.executed != [] ==> d.part.deciding
    ensures d.executed == Picked(d.later, d.part.convId, {AcceptProposal})
    ensures d.prepared != [] ==> Answers(d.sent[0], d.prepared[0].sender.name, d.part.name, d.prepared[0], d.replies[0])
    ensures d.executed != [] ==> Answers(d.sent[1], d.prepared[0].sender.name, d.part.name, d.executed[0], d.replies[1])
    ensures d.part.deciding ==> d.prepared != [] && d.part.convId == d.prepared[0].conversationId
  {
    hide Picked, CfpsAmong, Answers;
    FewerPicked(d.later, d.part.convId);
  }

  lemma CfpArrives(s: System, r: Record, d: Dossier, p: string, cfp: Message)
    requires Tied(s, r, d, p) && Served(d) && Spoke(r, cfp) && d.prepared != []
    ensures CarriesCfp(d.prepared[0], cfp, r.ini.name, r.ini.convId)
  {
    hide Tied, Served, CfpsAmong, CarriesCfp, Answers, Chosen;
    ServedParts(d);
    var m := d.prepared[0];
    CfpsMember(d.early, m);
    ReadWasSent(s, r, d, p, m);
    var i :| 0 <= i < |r.sent| && r.sent[i] == Envelope(p, m);
    assert i < |r.ini.participants|;
  }

  lemma AcceptArrives(s: System, r: Record, d: Dossier, p: string, cfp: Message)
    requires Tied(s, r, d, p) && Served(d) && Allowed(d) && Spoke(r, cfp) && Dispatched(r) && d.executed != [] && cfp.performative == Cfp
    requires d.prepared != [] ==> CarriesCfp(d.prepared[0], cfp, r.ini.name, r.ini.convId)
    ensures d.executed[0].performative == AcceptProposal && d.executed[0].conversationId == r.ini.convId
    ensures p in r.selected && d.replies != [] && d.executed[0].inReplyTo == d.replies[0].replyWith
  {
    hide Tied, Served, CfpsAmong, Picked, Chosen, Dispatched, Spoke;
    ServedParts(d);
    var m := d.executed[0];
    PickedMember(d.later, d.part.convId, {AcceptProposal}, m);
    ReadWasSent(s, r, d, p, m);
    var i :| 0 <= i < |r.sent| && r.sent[i] == Envelope(p, m);
    var proposal := SpokeVerdict(r, cfp, i);
    assert proposal in r.offers && proposal.performative == Propose by {
      DispatchedProposal(r, proposal);
    }
    TakenWasSent(s, r, d, p, proposal);
  }

  lemma SpokeVerdict(r: Record, cfp: Message, i: nat) returns (proposal: Message)
    requires Spoke(r, cfp) && i < |r.sent| && r.sent[i].msg.performative == AcceptProposal && cfp.performative == Cfp
    ensures proposal in r.ini.proposals && Judges(r.sent[i], proposal, r.ini.name, r.selected)
  {
    hide Chosen, Judges;
    var n := |r.ini.participants|;
    proposal := r.ini.proposals[i - n];
  }

  lemma DispatchedProposal(r: Record, m: Message)
    requires Dispatched(r) && m in r.ini.proposals
    ensures m in r.offers && m.performative == Propose
  {
    hide Picked;
    PickedMember(r.offers, r.ini.convId, {Propose}, m);
  }

  /** In every state of every run: what selectProposals and handleRefuse are given from a
      participant is what prepareProposal returned there, and refers to the CFP. */
  lemma OffersArrive(name: string, cfp: Message, participants: seq<string>, moves: seq<Move>, p: string)
    requires Legal(name, cfp, participants) && p in participants
    ensures var r, d := InitiatorOf(name, cfp, participants, moves), ParticipantOf(name, cfp, participants, moves, p);
      forall m :: (m in r.ini.proposals || m in r.refusals) && m.sender.name == p ==>
        d.replies != [] && SamePayload(m, d.replies[0]) && m.inReplyTo == "cfp-" + r.ini.convId
  {
    hide Tied, Allowed, Legal, Served, Spoke, Dispatched, Start, Play, InitiatorOf, ParticipantOf, CarriesCfp, SamePayload;
    var s := Play(Start(name, cfp, participants), moves);
    var r, d := InitiatorOf(name, cfp, participants, moves), ParticipantOf(name, cfp, participants, moves, p);
    RunTied(name, cfp, participants, moves, p);
    RunHandled(name, cfp, participants, moves, p);
    RolesOfRun(name, cfp, participants, moves, p);
    QuestionsArrive(name, cfp, participants, moves, p);
    forall m | (m in r.ini.proposals || m in r.refusals) && m.sender.name == p
      ensures d.replies != [] && SamePayload(m, d.replies[0]) && m.inReplyTo == "cfp-" + r.ini.convId
    {
      DispatchedOffer(r, m);
      OfferArrives(s, r, d, p, cfp, m);
    }
  }

  lemma DispatchedOffer(r: Record, m: Message)
    requires Dispatched(r) && (m in r.ini.proposals || m in r.refusals)
    ensures m in r.offers && (m.performative == Propose || m.performative in REFUSING)
  {
    hide Picked;
    PickedMember(r.offers, r.ini.convId, {Propose}, m);
    PickedMember(r.offers, r.ini.convId, REFUSING, m);
  }

  lemma OfferArrives(s: System, r: Record, d: Dossier, p: string, cfp: Message, m: Message)
    requires Tied(s, r, d, p) && Served(d) && Allowed(d) && m in r.offers && m.sender.name == p
    requires m.performative == Propose || m.performative in REFUSING
    requires d.prepared != [] ==> CarriesCfp(d.prepared[0], cfp, r.ini.name, r.ini.convId)
    ensures d.replies != [] && SamePayload(m, d.replies[0]) && m.inReplyTo == "cfp-" + r.ini.convId
  {
    hide Tied, Served, Picked, CfpsAmong;
    TakenWasSent(s, r, d, p, m);
    ServedParts(d);
  }

  /** From p, one callback has had one message, which says what the reply does, and the
      other nothing. */
  predicate OnlyIn(heard: seq<Message>, other: seq<Message>, p: string, reply: Message) {
    && |MessagesOf(heard, p)| == 1 && SamePayload(MessagesOf(heard, p)[0], reply)
    && MessagesOf(other, p) == []
  }

  /** When the initiator has finished and owes nothing: for every participant it accepted,
      executeTask was called once, and what it returned has reached the initiator's
      callback of its performative, handleInform for an INFORM and handleFailure for a
      FAILURE, once and unchanged; the other callback has had nothing from it. */
  lemma OutcomeArrives(name: string, cfp: Message, participants: seq<string>, moves: seq<Move>, p: string)
    requires Legal(name, cfp, participants) && p in participants
    ensures var s := Play(Start(name, cfp, participants), moves);
      var r, d := InitiatorOf(name, cfp, participants, moves), ParticipantOf(name, cfp, participants, moves, p);
      r.ini == s.ini
      && (s.ini.phase == Finished && s.ini.pending == 0 && p in s.ini.accepted ==>
            && |d.executed| == 1 && |d.replies| == 2
            && (d.replies[1].performative == Inform || d.replies[1].performative == Failure)
            && (d.replies[1].performative == Inform ==> OnlyIn(r.informs, r.failures, p, d.replies[1]))
            && (d.replies[1].performative == Failure ==> OnlyIn(r.failures, r.informs, p, d.replies[1])))
  {
    hide Tied, Handled, Allowed, Legal, Served, Spoke, Dispatched, Start, Play, Sound, Inv, OnlyIn, Count, InitiatorOf, ParticipantOf;
    var s := Play(Start(name, cfp, participants), moves);
    var r, d := InitiatorOf(name, cfp, participants, moves), ParticipantOf(name, cfp, participants, moves, p);
    RunTied(name, cfp, participants, moves, p);
    TiedParts(s, r, d, p);
    if s.ini.phase == Finished && s.ini.pending == 0 && p in s.ini.accepted {
      RunHandled(name, cfp, participants, moves, p);
      RunIsSound(name, cfp, participants, moves);
      SoundInv(s);
      FinishedMeansHandled(s, p);
      RolesOfRun(name, cfp, participants, moves, p);
      ResultHeard(s, r, d, p);
    }
  }

  lemma InformsAreInforms(r: Record)
    requires Dispatched(r)
    ensures forall m :: m in r.informs ==> m in r.reports && m.performative == Inform && m.conversationId == r.ini.convId
    ensures forall m :: m in r.failures ==> m in r.reports && m.performative == Failure && m.conversationId == r.ini.convId
  {
    hide Picked;
    forall m ensures m in r.informs <==> m in r.reports && m.conversationId == r.ini.convId && m.performative == Inform {
      PickedMember(r.reports, r.ini.convId, {Inform}, m);
    }
    forall m ensures m in r.failures <==> m in r.reports && m.conversationId == r.ini.convId && m.performative == Failure {
      PickedMember(r.reports, r.ini.convId, {Failure}, m);
    }
  }

  lemma ResultSent(s: System, r: Record, d: Dossier, p: string, m: Message)
    requires Tied(s, r, d, p) && Served(d) && Allowed(d) && m in r.reports && m.sender.name == p
    requires m.performative == Inform || m.performative == Failure
    ensures |d.executed| == 1 && |d.replies| == 2 && SamePayload(m, d.replies[1])
  {
    hide Tied, Served, Picked, CfpsAmong;
    TakenWasSent(s, r, d, p, m);
    ServedParts(d);
  }

  lemma ResultHeard(s: System, r: Record, d: Dossier, p: string)
    requires Tied(s, r, d, p) && Handled(s, r, p) && Served(d) && Allowed(d) && Dispatched(r)
    requires Count(s.log.results, p, RESULTS) == 1
    ensures |d.executed| == 1 && |d.replies| == 2
    ensures d.replies[1].performative == Inform || d.replies[1].performative == Failure
    ensures d.replies[1].performative == Inform ==> OnlyIn(r.informs, r.failures, p, d.replies[1])
    ensures d.replies[1].performative == Failure ==> OnlyIn(r.failures, r.informs, p, d.replies[1])
  {
    hide Tied, Served, Dispatched, MessagesOf, Count;
    InformsAreInforms(r);
    MessagesCount(r.informs, p, RESULTS);
    MessagesCount(r.failures, p, RESULTS);
    var heard := if MessagesOf(r.informs, p) != [] then r.informs else r.failures;
    var m := MessagesOf(heard, p)[0];
    MessageMember(heard, p, m);
    ResultSent(s, r, d, p, m);
  }
}
