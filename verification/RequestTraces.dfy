/** Any number of clients and one participant over the FIFO bus, in any interleaving,
    other agents acting also between the AGREE and the answer: every client sees an
    optional agreement and at most one ending, and every request that is taken up gets
    one final answer. */
module RequestTraces {
  import opened Options
  import opened AclMessages
  import opened MessageBus
  import opened Counting
  import opened RequestProtocol

  datatype Log = Log(
    notes: map<string, seq<Note>>,   // the callbacks of each client
    taken: seq<Message>,             // the requests taken up
    sent: seq<Envelope>)             // what the participant sent

  datatype System = System(
    server: string,
    clients: map<string, Requester>,
    busy: Option<Message>,           // the request between the two halves of an action
    bus: Queues<Message>,
    log: Log)

  datatype Move = Ask(who: string) | TakeUp(agree: bool) | Answer(response: Message)

  function Start(server: string, clients: map<string, Requester>): System {
    System(server, clients, None, map[], Log(map n | n in clients :: [], [], []))
  }

  function Noted(notes: map<string, seq<Note>>, who: string, n: Note): map<string, seq<Note>>
    requires who in notes
  {
    if n.Silent? || n.Dropped? then notes else notes[who := notes[who] + [n]]
  }

  /** The next state; a move that is not possible changes nothing. */
  function Next(s: System, move: Move): System {
    match move
    case Ask(who) =>
      if who !in s.clients || who !in s.log.notes || s.clients[who].done then s
      else
        var r, got := s.clients[who], Front(s.bus, s.clients[who].name);
        s.(clients := s.clients[who := RequesterNext(r, got)],
           bus := RequesterBus(r, s.bus),
           log := s.log.(notes := Noted(s.log.notes, who, NoteOf(r, got))))
    case TakeUp(agree) =>
      if s.busy.Some? then s
      else
        var taken := Taken(Front(s.bus, s.server));
        var agrees := if taken.Some? && agree then [Envelope(taken.value.sender.name, AgreeTo(s.server, taken.value))] else [];
        s.(busy := taken,
           bus := ReceiveBus(s.server, s.bus, agree),
           log := s.log.(taken := s.log.taken + (if taken.Some? then [taken.value] else []), sent := s.log.sent + agrees))
    case Answer(response) =>
      if s.busy.None? || !MayReturn(s.busy.value, response) then s
      else
        var request := s.busy.value;
        s.(busy := None,
           bus := RespondBus(s.server, s.bus, request, response),
           log := s.log.(sent := s.log.sent + [Envelope(request.sender.name, Completed(s.server, request, response))]))
  }

  function Play(s: System, moves: seq<Move>): System {
    if moves == [] then s else Next(Play(s, moves[..|moves| - 1]), moves[|moves| - 1])
  }

  // ----- one client's conversation -----

  /** The messages that were handed to callbacks. */
  function Heard(notes: seq<Note>): seq<Message> {
    if notes == [] then []
    else
      var n := notes[|notes| - 1];
      Heard(notes[..|notes| - 1]) + (if n.Silent? || n.HandleTimeout? then [] else [n.msg])
  }

  lemma HeardAppend(notes: seq<Note>, n: Note)
    ensures Heard(notes + [n]) == Heard(notes) + (if n.Silent? || n.HandleTimeout? then [] else [n.msg])
  {
    assert (notes + [n])[..|notes + [n]| - 1] == notes;
  }

  /** At most one agreement, first, and at most one ending, last. */
  predicate Proper(notes: seq<Note>) {
    && |notes| <= 2
    && (forall i :: 0 <= i < |notes| - 1 ==> notes[i].HandleAgree?)
    && (forall i :: 0 < i < |notes| ==> Terminal(notes[i]))
    && (forall i :: 0 <= i < |notes| ==> notes[i].HandleAgree? || Terminal(notes[i]))
  }

  predicate Ended(notes: seq<Note>) {
    notes != [] && Terminal(notes[|notes| - 1])
  }

  datatype Talk = Talk(
    conv: string, waiting: bool, done: bool,
    mail: seq<Message>,      // queued for the client
    inbox: seq<Message>,     // queued for the participant
    notes: seq<Note>,
    taken: nat,              // requests taken up
    busy: bool,              // being answered
    replies: seq<Message>)   // all that was sent to the client

  predicate Serving(busy: Option<Message>, who: string) {
    busy.Some? && busy.value.sender.name == who
  }

  function TalkOf(s: System, who: string): Talk
    requires who in s.clients && who in s.log.notes
  {
    Talk(s.clients[who].convId, s.clients[who].waiting, s.clients[who].done,
         Queue(s.bus, who), MessagesOf(Queue(s.bus, s.server), who), s.log.notes[who],
         |MessagesOf(s.log.taken, who)|, Serving(s.busy, who), Mail(s.log.sent, who))
  }

  predicate Idle(t: Talk) {
    t == Talk(t.conv, false, false, [], [], [], 0, false, [])
  }

  predicate Asked(t: Talk) {
    && t == Talk(t.conv, true, t.done, [], t.inbox, t.notes, 0, false, [])
    && |t.inbox| == 1 && t.inbox[0].performative == Request && t.inbox[0].conversationId == t.conv
    && t.notes == (if t.done then [HandleTimeout] else [])
  }

  /** The replies to the one request: an optional AGREE, and the final answer unless it
      is still being worked out. */
  predicate Answering(replies: seq<Message>, conv: string, busy: bool) {
    && (forall m :: m in replies ==> m.conversationId == conv)
    && (forall i :: 0 <= i < |replies| - 1 ==> replies[i].performative == Agree)
    && (if busy then |replies| <= 1 && (replies != [] ==> replies[0].performative == Agree)
        else 1 <= |replies| <= 2 && replies[|replies| - 1].performative in FINAL)
  }

  predicate Served(t: Talk) {
    && t.waiting && t.inbox == [] && t.taken == 1
    && Answering(t.replies, t.conv, t.busy)
    && Heard(t.notes) + t.mail == t.replies
    && Proper(t.notes) && t.done == Ended(t.notes)
  }

  predicate Fits(t: Talk) {
    Idle(t) || Asked(t) || Served(t)
  }

  // ----- the client's move -----

  function AskTo(t: Talk, request: Message, note: Note): Talk {
    if !t.waiting then t.(waiting := true, inbox := t.inbox + [request])
    else
      var u := t.(mail := if t.mail == [] then [] else t.mail[1..], done := Terminal(note));
      if note.Silent? || note.Dropped? then u else u.(notes := t.notes + [note])
  }

  function NoteFor(t: Talk): Note {
    if !t.waiting then Silent
    else if t.mail == [] then HandleTimeout
    else
      var m := t.mail[0];
      if m.conversationId != t.conv then Dropped(m)
      else if m.performative == Agree then HandleAgree(m)
      else if m.performative == Inform then HandleInform(m)
      else if m.performative == Refuse then HandleRefuse(m)
      else if m.performative == Failure then HandleFailure(m)
      else if m.performative == NotUnderstood then HandleNotUnderstood(m)
      else Dropped(m)
  }

  lemma LocalAsk(t: Talk, request: Message)
    requires Fits(t) && !t.done
    requires request.performative == Request && request.conversationId == t.conv
    ensures Fits(AskTo(t, request, NoteFor(t)))
  {
    if Served(t) {
      LocalHears(t, request);
    }
  }

  lemma LocalHears(t: Talk, request: Message)
    requires Served(t) && !t.done
    ensures Served(AskTo(t, request, NoteFor(t)))
  {
    hide Heard, Proper, Ended, Answering;
    HeardAgrees(t.notes);
    if t.mail == [] {
      HeardAppend(t.notes, HandleTimeout);
      ProperAppend(t.notes, HandleTimeout);
      assert Heard(t.notes) + [] == Heard(t.notes);
    } else {
      var m, note := t.mail[0], NoteFor(t);
      assert t.replies[|Heard(t.notes)|] == m;
      NextReply(t.replies, t.conv, t.busy, |t.notes|);
      HeardAppend(t.notes, note);
      ProperAppend(t.notes, note);
      assert Heard(t.notes) + [m] + t.mail[1..] == t.replies;
    }
  }

  /** The reply at position i is the agreement only if it is the first. */
  lemma NextReply(replies: seq<Message>, conv: string, busy: bool, i: nat)
    requires Answering(replies, conv, busy) && i < |replies|
    ensures replies[i].conversationId == conv
    ensures replies[i].performative in FINAL || (replies[i].performative == Agree && i == 0)
  {
    assert replies[i] in replies;
  }

  lemma ProperAppend(notes: seq<Note>, n: Note)
    requires Proper(notes) && !Ended(notes) && (Terminal(n) || (n.HandleAgree? && notes == []))
    ensures Proper(notes + [n]) && Ended(notes + [n]) == Terminal(n)
  {
  }

  /** A client that has not ended has heard at most the agreement. */
  lemma HeardAgrees(notes: seq<Note>)
    requires Proper(notes) && !Ended(notes)
    ensures |notes| <= 1 && |Heard(notes)| == |notes|
  {
    if notes != [] {
      assert notes[..0] == [];
    }
  }

  // ----- the participant's moves -----

  lemma LocalTaken(t: Talk, agree: seq<Message>)
    requires Fits(t) && t.inbox != [] && !t.busy
    requires |agree| <= 1 && forall m :: m in agree ==> m.performative == Agree && m.conversationId == t.conv
    ensures Fits(t.(inbox := t.inbox[1..], taken := t.taken + 1, busy := true, mail := t.mail + agree, replies := t.replies + agree))
  {
    var t' := t.(inbox := t.inbox[1..], taken := t.taken + 1, busy := true, mail := t.mail + agree, replies := t.replies + agree);
    assert t'.mail == agree && t'.replies == agree;
    assert Heard(t.notes) == [] by {
      if t.done {
        assert t.notes[..0] == [];
      }
    }
    assert [] + agree == agree;
    assert Served(t');
  }

  lemma LocalAnswered(t: Talk, final: Message)
    requires Fits(t) && t.busy && final.performative in FINAL && final.conversationId == t.conv
    ensures Fits(t.(busy := false, mail := t.mail + [final], replies := t.replies + [final]))
  {
    hide Heard, Proper;
    var t' := t.(busy := false, mail := t.mail + [final], replies := t.replies + [final]);
    assert Heard(t.notes) + (t.mail + [final]) == Heard(t.notes) + t.mail + [final];
    assert Served(t');
  }

  // ----- the invariant -----

  predicate ClientOk(s: System, who: string) {
    who in s.clients && who in s.log.notes && s.clients[who].name == who && s.clients[who].target == s.server
  }

  ghost predicate Setup(s: System) {
    && s.server !in s.clients
    && s.clients.Keys == s.log.notes.Keys
    && (forall who :: who in s.clients ==> ClientOk(s, who))
    && (forall m :: m in Queue(s.bus, s.server) ==> m.sender.name in s.clients && m.performative == Request)
    && (s.busy.Some? ==>
          s.busy.value.sender.name in s.clients
          && s.busy.value.conversationId == s.clients[s.busy.value.sender.name].convId)
    && (forall m :: m in s.log.taken ==> m.sender.name in s.clients)
    && (forall e :: e in s.log.sent ==> e.to in s.clients)
  }

  ghost predicate Inv(s: System) {
    Setup(s) && forall who :: who in s.clients ==> ClientOk(s, who) && Fits(TalkOf(s, who))
  }

  /** A legal start: clients of this participant, fresh, under their own names. */
  ghost predicate Legal(server: string, clients: map<string, Requester>) {
    && server !in clients
    && forall n :: n in clients ==>
         clients[n].name == n && clients[n].target == server && !clients[n].waiting && !clients[n].done
  }

  lemma StartInv(server: string, clients: map<string, Requester>)
    requires Legal(server, clients)
    ensures Inv(Start(server, clients))
  {
    var s := Start(server, clients);
    forall who | who in s.clients ensures ClientOk(s, who) && Fits(TalkOf(s, who)) {
      assert Idle(TalkOf(s, who));
    }
  }

  lemma InvParts(s: System, who: string)
    requires Inv(s) && who in s.clients
    ensures Setup(s) && ClientOk(s, who) && Fits(TalkOf(s, who)) && who != s.server
  {
    hide Fits;
  }

  lemma SetupOf(s: System)
    requires Inv(s)
    ensures Setup(s)
  {
    hide Setup, Fits;
  }

  lemma InvFromParts(s: System)
    requires Setup(s)
    requires forall who :: who in s.clients ==> ClientOk(s, who) && Fits(TalkOf(s, who))
    ensures Inv(s)
  {
    hide Setup, Fits;
  }

  lemma AskTalk(s: System, who: string)
    requires ClientOk(s, who) && who != s.server && !s.clients[who].done
    ensures ClientOk(Next(s, Ask(who)), who)
    ensures TalkOf(Next(s, Ask(who)), who)
         == AskTo(TalkOf(s, who), RequestMessage(s.clients[who]), NoteFor(TalkOf(s, who)))
  {
    hide MessagesOf, Mail, RequestMessage;
    MessagesOfAppend(Queue(s.bus, s.server), RequestMessage(s.clients[who]), who);
    RequestFields(s.clients[who]);
  }

  lemma RequestFields(r: Requester)
    ensures var m := RequestMessage(r);
      m.sender.name == r.name && m.performative == Request && m.conversationId == r.convId
  {
  }

  lemma AskOthers(s: System, who: string, w: string)
    requires ClientOk(s, who) && ClientOk(s, w) && who != s.server && w != s.server && w != who && !s.clients[who].done
    ensures ClientOk(Next(s, Ask(who)), w) && TalkOf(Next(s, Ask(who)), w) == TalkOf(s, w)
  {
    hide MessagesOf, Mail, RequestMessage, NoteOf;
    MessagesOfAppend(Queue(s.bus, s.server), RequestMessage(s.clients[who]), w);
    RequestFields(s.clients[who]);
    assert MessagesOf(Queue(s.bus, s.server), w) + [] == MessagesOf(Queue(s.bus, s.server), w);
  }

  lemma AskSetup(s: System, who: string)
    requires Setup(s) && who in s.clients && !s.clients[who].done
    ensures Setup(Next(s, Ask(who))) && Next(s, Ask(who)).clients.Keys == s.clients.Keys
  {
    hide RequestMessage, NoteOf;
    assert ClientOk(s, who);
    RequestFields(s.clients[who]);
    var s' := Next(s, Ask(who));
    forall w | w in s'.clients ensures ClientOk(s', w) {
      assert ClientOk(s, w);
    }
  }

  lemma AskKeepsInv(s: System, who: string)
    requires Inv(s)
    ensures Inv(Next(s, Ask(who)))
  {
    hide Inv, Fits, TalkOf, AskTo, Setup, RequestMessage, NoteOf, NoteFor, RequesterNext, RequesterBus;
    var s' := Next(s, Ask(who));
    if who in s.clients && !s.clients[who].done && s' != s {
      InvParts(s, who);
      AskSetup(s, who);
      AskTalk(s, who);
      RequestFields(s.clients[who]);
      TalkBasics(s, who);
      LocalAsk(TalkOf(s, who), RequestMessage(s.clients[who]));
      forall w | w in s'.clients ensures ClientOk(s', w) && Fits(TalkOf(s', w)) {
        assert w in s'.clients.Keys;
        InvParts(s, w);
        if w != who {
          AskOthers(s, who, w);
        }
      }
      InvFromParts(s');
    }
  }

  lemma TalkBasics(s: System, who: string)
    requires ClientOk(s, who)
    ensures TalkOf(s, who).done == s.clients[who].done && TalkOf(s, who).conv == s.clients[who].convId
    ensures TalkOf(s, who).busy == Serving(s.busy, who)
  {
  }

  /** The queues and the log after a request m has been taken up. */
  lemma ReceiveState(s: System, agree: bool, m: Message) returns (agrees: seq<Message>)
    requires Front(s.bus, s.server) == Some(m) && m.performative == Request && s.busy.None? && m.sender.name != s.server
    ensures agrees == if agree then [AgreeTo(s.server, m)] else []
    ensures var s', who := Next(s, TakeUp(agree)), m.sender.name;
      && s'.busy == Some(m) && s'.clients == s.clients && s'.log.notes == s.log.notes && s'.server == s.server
      && s'.log.taken == s.log.taken + [m]
      && s'.log.sent == s.log.sent + (if agree then [Envelope(who, AgreeTo(s.server, m))] else [])
      && Queue(s.bus, s.server) == [m] + Queue(s'.bus, s.server)
      && Queue(s'.bus, who) == Queue(s.bus, who) + agrees
      && forall w :: w != who && w != s.server ==> Queue(s'.bus, w) == Queue(s.bus, w)
  {
    hide AgreeTo;
    agrees := if agree then [AgreeTo(s.server, m)] else [];
    assert Queue(s.bus, m.sender.name) + [] == Queue(s.bus, m.sender.name);
  }

  lemma AgreeFields(server: string, m: Message)
    ensures AgreeTo(server, m).performative == Agree && AgreeTo(server, m).conversationId == m.conversationId
  {
  }

  lemma MailSent(sent: seq<Envelope>, to: string, agree: bool, m: Message, w: string)
    ensures Mail(sent + (if agree then [Envelope(to, m)] else []), w)
         == Mail(sent, w) + (if agree && to == w then [m] else [])
  {
    if agree {
      MailAppend(sent, Envelope(to, m), w);
    } else {
      assert sent + [] == sent;
    }
  }

  lemma ReceiveTalk(s: System, agree: bool, m: Message)
    requires Front(s.bus, s.server) == Some(m) && m.performative == Request && s.busy.None?
    requires ClientOk(s, m.sender.name) && m.sender.name != s.server
    ensures ClientOk(Next(s, TakeUp(agree)), m.sender.name)
    ensures TalkOf(s, m.sender.name).inbox != [] && TalkOf(s, m.sender.name).inbox[0] == m
    ensures var t, agrees := TalkOf(s, m.sender.name), if agree then [AgreeTo(s.server, m)] else [];
      TalkOf(Next(s, TakeUp(agree)), m.sender.name) ==
        t.(inbox := t.inbox[1..], taken := t.taken + 1, busy := true, mail := t.mail + agrees, replies := t.replies + agrees)
  {
    hide Next, MessagesOf, Mail, AgreeTo, Queue, Front;
    var who := m.sender.name;
    var agrees := ReceiveState(s, agree, m);
    var s' := Next(s, TakeUp(agree));
    MessagesOfHead(m, Queue(s'.bus, s.server), who);
    MessagesOfAppend(s.log.taken, m, who);
    MailSent(s.log.sent, who, agree, AgreeTo(s.server, m), who);
    assert ([m] + MessagesOf(Queue(s'.bus, s.server), who))[1..] == MessagesOf(Queue(s'.bus, s.server), who);
  }

  lemma ReceiveOthers(s: System, agree: bool, m: Message, w: string)
    requires Front(s.bus, s.server) == Some(m) && m.performative == Request && s.busy.None? && m.sender.name != s.server
    requires ClientOk(s, w) && w != s.server && w != m.sender.name
    ensures ClientOk(Next(s, TakeUp(agree)), w) && TalkOf(Next(s, TakeUp(agree)), w) == TalkOf(s, w)
  {
    hide Next, MessagesOf, Mail, AgreeTo, Queue, Front;
    var agrees := ReceiveState(s, agree, m);
    var s' := Next(s, TakeUp(agree));
    MessagesOfHead(m, Queue(s'.bus, s.server), w);
    MessagesOfAppend(s.log.taken, m, w);
    MailSent(s.log.sent, m.sender.name, agree, AgreeTo(s.server, m), w);
  }

  lemma ReceiveSetup(s: System, agree: bool, m: Message)
    requires Inv(s) && Front(s.bus, s.server) == Some(m) && s.busy.None?
    ensures m.performative == Request && ClientOk(s, m.sender.name) && m.sender.name != s.server
    ensures Setup(Next(s, TakeUp(agree))) && Next(s, TakeUp(agree)).clients == s.clients
  {
    hide Inv, Fits, Next, AgreeTo, TalkOf;
    SetupOf(s);
    assert m in Queue(s.bus, s.server);
    var agrees := ReceiveState(s, agree, m);
    InvParts(s, m.sender.name);
    ReceiveTalk(s, agree, m);
    InboxConv(s, m);
    var s' := Next(s, TakeUp(agree));
    forall w | w in s'.clients ensures ClientOk(s', w) {
      assert ClientOk(s, w);
    }
  }

  lemma InboxConv(s: System, m: Message)
    requires ClientOk(s, m.sender.name) && Fits(TalkOf(s, m.sender.name))
    requires TalkOf(s, m.sender.name).inbox != [] && TalkOf(s, m.sender.name).inbox[0] == m
    ensures m.conversationId == s.clients[m.sender.name].convId
  {
  }

  lemma ReceiveKeepsInv(s: System, agree: bool)
    requires Inv(s)
    ensures Inv(Next(s, TakeUp(agree)))
  {
    hide Inv, Fits, TalkOf, Setup, AgreeTo, Serving;
    var s' := Next(s, TakeUp(agree));
    if s.busy.None? {
      if Front(s.bus, s.server).None? {
        assert s.log.sent + [] == s.log.sent && s.log.taken + [] == s.log.taken;
        assert s' == s;
      } else {
        hide Next;
        var m := Front(s.bus, s.server).value;
        ReceiveSetup(s, agree, m);
        var who := m.sender.name;
        InvParts(s, who);
        ReceiveTalk(s, agree, m);
        InboxConv(s, m);
        AgreeFields(s.server, m);
        TalkBasics(s, who);
        NotServing(s, who);
        LocalTaken(TalkOf(s, who), if agree then [AgreeTo(s.server, m)] else []);
        forall w | w in s'.clients ensures ClientOk(s', w) && Fits(TalkOf(s', w)) {
          InvParts(s, w);
          if w != who {
            ReceiveOthers(s, agree, m, w);
          }
        }
        InvFromParts(s');
      }
    }
  }

  lemma NotServing(s: System, who: string)
    requires s.busy.None?
    ensures !Serving(s.busy, who)
  {
  }

  lemma RespondTalk(s: System, response: Message, w: string)
    requires s.busy.Some? && MayReturn(s.busy.value, response) && s.busy.value.sender.name != s.server
    requires ClientOk(s, w) && w != s.server
    ensures var s', t, final := Next(s, Answer(response)), TalkOf(s, w), Completed(s.server, s.busy.value, response);
      && ClientOk(s', w) && s'.clients == s.clients
      && TalkOf(s', w) == if w == s.busy.value.sender.name
           then t.(busy := false, mail := t.mail + [final], replies := t.replies + [final]) else t
  {
    hide MessagesOf, Mail, Completed, MayReturn;
    var final := Completed(s.server, s.busy.value, response);
    MailAppend(s.log.sent, Envelope(s.busy.value.sender.name, final), w);
    assert Mail(s.log.sent, w) + [] == Mail(s.log.sent, w);
  }

  lemma FinalFields(server: string, request: Message, response: Message)
    requires MayReturn(request, response)
    ensures var final := Completed(server, request, response);
      final.performative in FINAL && final.conversationId == request.conversationId
  {
  }

  lemma RespondSetup(s: System, response: Message)
    requires Setup(s) && s.busy.Some? && MayReturn(s.busy.value, response)
    ensures ClientOk(s, s.busy.value.sender.name)
    ensures s.busy.value.conversationId == s.clients[s.busy.value.sender.name].convId
    ensures Setup(Next(s, Answer(response))) && Next(s, Answer(response)).clients == s.clients
  {
    hide Completed, MayReturn;
    var s' := Next(s, Answer(response));
    forall w | w in s'.clients ensures ClientOk(s', w) {
      assert ClientOk(s, w);
    }
  }

  lemma RespondKeepsInv(s: System, response: Message)
    requires Inv(s)
    ensures Inv(Next(s, Answer(response)))
  {
    hide Inv, Fits, TalkOf, Setup, Completed, MayReturn;
    var s' := Next(s, Answer(response));
    if s.busy.Some? && MayReturn(s.busy.value, response) {
      hide Next;
      SetupOf(s);
      RespondSetup(s, response);
      FinalFields(s.server, s.busy.value, response);
      var final := Completed(s.server, s.busy.value, response);
      forall w | w in s'.clients ensures ClientOk(s', w) && Fits(TalkOf(s', w)) {
        InvParts(s, w);
        InvParts(s, s.busy.value.sender.name);
        RespondTalk(s, response, w);
        if w == s.busy.value.sender.name {
          TalkBasics(s, w);
          LocalAnswered(TalkOf(s, w), final);
        }
      }
      InvFromParts(s');
    }
  }

  // ----- every run -----

  lemma {:induction false} PlayKeepsInv(s: System, moves: seq<Move>)
    requires Inv(s)
    ensures Inv(Play(s, moves))
  {
    hide Inv, Next;
    if moves != [] {
      var before, move := Play(s, moves[..|moves| - 1]), moves[|moves| - 1];
      PlayKeepsInv(s, moves[..|moves| - 1]);
      match move {
        case Ask(who) => AskKeepsInv(before, who);
        case TakeUp(agree) => ReceiveKeepsInv(before, agree);
        case Answer(response) => RespondKeepsInv(before, response);
      }
    }
  }

  lemma NamesStay(s: System, moves: seq<Move>)
    ensures Play(s, moves).clients.Keys == s.clients.Keys && Play(s, moves).log.notes.Keys == s.log.notes.Keys
    ensures Play(s, moves).server == s.server
  {
    if moves != [] {
      NamesStay(s, moves[..|moves| - 1]);
      hide RequesterNext, RequesterBus, ReceiveBus, RespondBus, NoteOf;
    }
  }

  lemma LocalTrace(t: Talk)
    requires Fits(t)
    ensures Proper(t.notes) && t.done == Ended(t.notes) && Heard(t.notes) + t.mail == t.replies
    ensures t.taken <= 1
    ensures if t.taken == 0 then t.replies == [] && !t.busy else Answering(t.replies, t.conv, t.busy)
  {
    if Asked(t) {
      assert t.done ==> t.notes[..0] == [];
    }
  }

  /** In every state of every run, for every client: its callbacks are an optional
      agreement and then at most one ending, it is done exactly when it has had the
      ending, and what its callbacks were given, followed by what is still queued, is
      all that the participant sent it: no reply is lost or handled twice. */
  lemma ClientTrace(server: string, clients: map<string, Requester>, moves: seq<Move>, who: string)
    requires Legal(server, clients) && who in clients
    ensures var s := Play(Start(server, clients), moves);
      && who in s.clients && who in s.log.notes
      && var notes := s.log.notes[who];
      && Proper(notes)
      && (s.clients[who].done <==> Ended(notes))
      && Heard(notes) + Queue(s.bus, who) == Mail(s.log.sent, who)
  {
    hide Inv, Play, Fits, Heard, MessagesOf, Mail, Legal, Proper, Ended;
    var s := Reached(server, clients, moves, who);
    LocalTrace(TalkOf(s, who));
  }

  lemma Reached(server: string, clients: map<string, Requester>, moves: seq<Move>, who: string) returns (s: System)
    requires Legal(server, clients) && who in clients
    ensures s == Play(Start(server, clients), moves) && Inv(s) && s.server == server
    ensures who in s.clients && ClientOk(s, who) && Fits(TalkOf(s, who))
  {
    hide Inv, Play, Fits, TalkOf, Legal;
    s := Play(Start(server, clients), moves);
    StartInv(server, clients);
    PlayKeepsInv(Start(server, clients), moves);
    NamesStay(Start(server, clients), moves);
    assert who in Start(server, clients).clients.Keys;
    InvParts(s, who);
  }

  /** In every state of every run a client's request is taken up at most once; a request
      not taken up has no reply, one being worked on has had at most its AGREE, and one
      that is finished with has had exactly one final answer, behind its AGREE if any. */
  lemma OneFinalReply(server: string, clients: map<string, Requester>, moves: seq<Move>, who: string)
    requires Legal(server, clients) && who in clients
    ensures var s := Play(Start(server, clients), moves);
      && who in s.clients
      && var requests, replies := MessagesOf(s.log.taken, who), Mail(s.log.sent, who);
      && |requests| <= 1
      && (if requests == [] then replies == [] && !Serving(s.busy, who)
          else Answering(replies, s.clients[who].convId, Serving(s.busy, who)))
  {
    hide Inv, Play, Fits, Heard, MessagesOf, Mail, Legal, Proper, Ended, Answering, Serving;
    var s := Reached(server, clients, moves, who);
    LocalTrace(TalkOf(s, who));
  }
}
