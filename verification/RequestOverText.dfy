/** The Request protocol over the text transport. */
module RequestOverText {
  import opened Options
  import opened AclMessages
  import opened AclTokens
  import opened AclCodec
  import opened MessageBus
  import opened Transport
  import opened Counting
  import opened RequestProtocol
  import opened SpokenMessages
  import opened TextShadows
  import RT = RequestTraces

  datatype TextSystem = TextSystem(
    server: string,
    clients: map<string, Requester>,
    busy: Option<Message>,
    bus: Queues<string>,
    log: RT.Log)

  function TextStart(server: string, clients: map<string, Requester>): TextSystem {
    TextSystem(server, clients, None, map[], RT.Log(map n | n in clients :: [], [], []))
  }

  /** The log once a request has been taken up or found missing. */
  function TakenLog(log: RT.Log, server: string, taken: Option<Message>, agree: bool): RT.Log {
    if taken.None? then log
    else log.(taken := log.taken + [taken.value],
              sent := log.sent + (if agree then [Envelope(taken.value.sender.name, AgreeTo(server, taken.value))] else []))
  }

  function TextNext(t: TextSystem, move: RT.Move): TextSystem {
    match move
    case Ask(who) =>
      if who !in t.clients || who !in t.log.notes || t.clients[who].done then t
      else
        var r := t.clients[who];
        var got := Decoded(Front(t.bus, r.name));
        t.(clients := t.clients[who := RequesterNext(r, got)],
           bus := if r.waiting then Polled(t.bus, r.name) else Enqueued(t.bus, r.target, Print(RequestMessage(r))),
           log := t.log.(notes := RT.Noted(t.log.notes, who, NoteOf(r, got))))
    case TakeUp(agree) =>
      if t.busy.Some? then t
      else
        var taken := Taken(Decoded(Front(t.bus, t.server)));
        var polled := Polled(t.bus, t.server);
        t.(busy := taken,
           bus := if taken.Some? && agree
                  then Enqueued(polled, taken.value.sender.name, Print(AgreeTo(t.server, taken.value))) else polled,
           log := TakenLog(t.log, t.server, taken, agree))
    case Answer(response) =>
      if t.busy.None? || !MayReturn(t.busy.value, response) then t
      else
        var final := Envelope(t.busy.value.sender.name, Completed(t.server, t.busy.value, response));
        t.(busy := None,
           bus := Enqueued(t.bus, final.to, Print(final.msg)),
           log := t.log.(sent := t.log.sent + [final]))
  }

  function TextPlay(t: TextSystem, moves: seq<RT.Move>): TextSystem {
    if moves == [] then t else TextNext(TextPlay(t, moves[..|moves| - 1]), moves[|moves| - 1])
  }

  // ----- no step looks at an address -----

  function EraseNote(n: Note): Note {
    if n.Silent? || n.HandleTimeout? then n else n.(msg := EraseAddresses(n.msg))
  }

  function EraseNotes(ns: seq<Note>): seq<Note> {
    if ns == [] then [] else EraseNotes(ns[..|ns| - 1]) + [EraseNote(ns[|ns| - 1])]
  }

  lemma EraseNotesAppend(ns: seq<Note>, n: Note)
    ensures EraseNotes(ns + [n]) == EraseNotes(ns) + [EraseNote(n)]
  {
    assert (ns + [n])[..|ns|] == ns;
  }

  predicate SameNotes(a: map<string, seq<Note>>, b: map<string, seq<Note>>) {
    a.Keys == b.Keys && forall who :: who in b ==> a[who] == EraseNotes(b[who])
  }

  /** The callbacks were given the same messages and the participant has sent the same,
      up to addresses. */
  predicate SameLog(a: RT.Log, b: RT.Log) {
    SameNotes(a.notes, b.notes) && a.taken == EraseAll(b.taken) && SameMail(a.sent, b.sent)
  }

  lemma NotedShadows(a: map<string, seq<Note>>, b: map<string, seq<Note>>, who: string, n: Note)
    requires SameNotes(a, b) && who in b
    ensures who in a && SameNotes(RT.Noted(a, who, EraseNote(n)), RT.Noted(b, who, n))
    ensures RT.Noted(b, who, n).Keys == b.Keys
  {
    hide EraseNotes, EraseAddresses;
    assert who in a.Keys;
    EraseNotesAppend(b[who], n);
  }

  lemma TakenShadows(a: RT.Log, b: RT.Log, server: string, taken: Option<Message>, agree: bool)
    requires SameLog(a, b)
    ensures SameLog(TakenLog(a, server, Delivered(taken), agree), TakenLog(b, server, taken, agree))
  {
    hide SameNotes, EraseAddresses, AgreeTo, SameMail, EraseAll;
    if taken.Some? {
      var m := taken.value;
      EraseAllAppend(b.taken, m);
      if agree {
        ErasedAgree(server, m);
        SameMailAppend(a.sent, b.sent, Envelope(EraseAddresses(m).sender.name, AgreeTo(server, EraseAddresses(m))),
                       Envelope(m.sender.name, AgreeTo(server, m)));
      } else {
        assert a.sent + [] == a.sent && b.sent + [] == b.sent;
      }
    }
  }

  lemma TakeUpLog(s: RT.System, agree: bool)
    requires s.busy.None?
    ensures RT.Next(s, RT.TakeUp(agree)).log == TakenLog(s.log, s.server, Taken(Front(s.bus, s.server)), agree)
  {
    hide ReceiveBus, AgreeTo;
    assert s.log.taken + [] == s.log.taken && s.log.sent + [] == s.log.sent;
  }

  lemma ErasedRequester(r: Requester, got: Option<Message>)
    ensures RequesterNext(r, Delivered(got)) == RequesterNext(r, got)
    ensures Taken(Delivered(got)) == Delivered(Taken(got))
    ensures NoteOf(r, Delivered(got)) == EraseNote(NoteOf(r, got))
  {
  }

  lemma ErasedAgree(server: string, m: Message)
    ensures EraseAddresses(AgreeTo(server, EraseAddresses(m))) == EraseAddresses(AgreeTo(server, m))
    ensures EraseAddresses(m).sender.name == m.sender.name
  {
  }

  lemma ErasedCompleted(server: string, m: Message, response: Message)
    ensures EraseAddresses(Completed(server, EraseAddresses(m), response)) == EraseAddresses(Completed(server, m, response))
    ensures MayReturn(EraseAddresses(m), response) == MayReturn(m, response)
  {
  }

  // ----- what is sent can be read -----

  ghost predicate Speaks(r: Requester) {
    PlainWord(r.name) && PlainWord(r.target) && '\0' !in r.content && Canonical(r.ontology) && Canonical(r.convId)
  }

  ghost predicate Sayable(move: RT.Move) {
    move.Answer? ==> Printable(move.response)
  }

  ghost predicate AllReady(s: RT.System) {
    && PlainWord(s.server) && (forall who :: who in s.clients ==> Speaks(s.clients[who]))
    && (s.busy.Some? ==> Ready(s.busy.value)) && BusReady(s.bus)
  }

  ghost predicate Shadows(t: TextSystem, s: RT.System) {
    && t.server == s.server && t.clients == s.clients && t.busy == Delivered(s.busy) && Mirrors(t.bus, s.bus)
    && s.clients.Keys == s.log.notes.Keys && SameLog(t.log, s.log)
  }

  lemma SpeaksOn(r: Requester, got: Option<Message>)
    requires Speaks(r)
    ensures Speaks(RequesterNext(r, got)) && Ready(RequestMessage(r))
  {
    RequestReady(r);
  }

  lemma AskShadows(t: TextSystem, s: RT.System, who: string)
    requires Shadows(t, s) && AllReady(s)
    ensures Shadows(TextNext(t, RT.Ask(who)), RT.Next(s, RT.Ask(who))) && AllReady(RT.Next(s, RT.Ask(who)))
  {
    hide Mirrors, Delivered, Decoded, Print, Speaks, Ready, BusReady, RequesterNext, RequestMessage, PlainWord, EraseAddresses,
         NoteOf, EraseNote, EraseNotes, EraseAll, SameMail, SameNotes, RT.Noted;
    assert who in s.clients <==> who in s.log.notes.Keys;
    if who in s.clients {
      NotedShadows(t.log.notes, s.log.notes, who, NoteOf(s.clients[who], Front(s.bus, s.clients[who].name)));
    }
    if who in s.clients && !s.clients[who].done {
      var r := s.clients[who];
      SameFront(t.bus, s.bus, r.name);
      ErasedRequester(r, Front(s.bus, r.name));
      SpeaksOn(r, Front(s.bus, r.name));
      PolledReady(s.bus, r.name);
      if !r.waiting {
        SayOne(t.bus, s.bus, r.target, RequestMessage(r), RequestMessage(r));
      }
    }
  }

  /** Sending a message over both transports. */
  lemma SayOne(text: Queues<string>, mock: Queues<Message>, to: string, a: Message, b: Message)
    requires Mirrors(text, mock) && BusReady(mock) && Ready(a) && Ready(b) && EraseAddresses(a) == EraseAddresses(b)
    ensures Mirrors(Enqueued(text, to, Print(a)), Enqueued(mock, to, b)) && BusReady(Enqueued(mock, to, b))
  {
    hide Mirrors, Print, Ready, BusReady, EraseAddresses, Enqueued, Stands;
    ReadyPrintable(a);
    TextStands(a, b);
    OneMirrors(text, mock, to, Print(a), b);
    OneReady(mock, to, b);
  }

  lemma TakeUpShadows(t: TextSystem, s: RT.System, agree: bool)
    requires Shadows(t, s) && AllReady(s)
    ensures Shadows(TextNext(t, RT.TakeUp(agree)), RT.Next(s, RT.TakeUp(agree))) && AllReady(RT.Next(s, RT.TakeUp(agree)))
  {
    hide Mirrors, Decoded, Print, Speaks, Ready, BusReady, AgreeTo, PlainWord, EraseAddresses, SameLog, TakenLog, NoteOf;
    if s.busy.None? {
      var got := Front(s.bus, s.server);
      SameFront(t.bus, s.bus, s.server);
      ErasedRequester(NewRequester("", "", "", "", ""), got);
      PolledReady(s.bus, s.server);
      TakenShadows(t.log, s.log, s.server, Taken(got), agree);
      TakeUpLog(s, agree);
      if Taken(got).Some? && agree {
        AgreeReady(s.server, got.value);
        ErasedAgree(s.server, got.value);
        SayOne(Polled(t.bus, s.server), Polled(s.bus, s.server), got.value.sender.name,
               AgreeTo(s.server, EraseAddresses(got.value)), AgreeTo(s.server, got.value));
      }
    }
  }

  lemma AgreeReady(server: string, m: Message)
    requires Ready(m) && PlainWord(server)
    ensures Ready(AgreeTo(server, m)) && Ready(AgreeTo(server, EraseAddresses(m)))
  {
    hide PlainWord, Canonical;
    ReplyReady(m, Agree, server);
    PrintableErased(m);
    ReplyReady(EraseAddresses(m), Agree, server);
  }

  lemma AnswerShadows(t: TextSystem, s: RT.System, response: Message)
    requires Shadows(t, s) && AllReady(s) && Printable(response)
    ensures Shadows(TextNext(t, RT.Answer(response)), RT.Next(s, RT.Answer(response))) && AllReady(RT.Next(s, RT.Answer(response)))
  {
    hide Mirrors, Print, Printable, Speaks, Ready, BusReady, Completed, MayReturn, PlainWord, EraseAddresses, SameNotes,
         EraseAll, SameMail;
    if s.busy.Some? {
      var m := s.busy.value;
      ErasedCompleted(s.server, m, response);
      ErasedSender(m);
      if MayReturn(m, response) {
        BothCompleted(s.server, m, response);
        SameMailAppend(t.log.sent, s.log.sent,
                       Envelope(m.sender.name, Completed(s.server, EraseAddresses(m), response)),
                       Envelope(m.sender.name, Completed(s.server, m, response)));
        SayOne(t.bus, s.bus, m.sender.name, Completed(s.server, EraseAddresses(m), response), Completed(s.server, m, response));
      }
    }
  }

  lemma BothCompleted(server: string, m: Message, response: Message)
    requires Ready(m) && Printable(response) && PlainWord(server) && MayReturn(m, response)
    ensures Ready(Completed(server, m, response)) && Ready(Completed(server, EraseAddresses(m), response))
  {
    hide PlainWord, Canonical;
    CompletedReady(server, m, response);
    PrintableErased(m);
    CompletedReady(server, EraseAddresses(m), response);
  }

  lemma {:induction false} PlayShadows(t: TextSystem, s: RT.System, moves: seq<RT.Move>)
    requires Shadows(t, s) && AllReady(s) && forall move :: move in moves ==> Sayable(move)
    ensures Shadows(TextPlay(t, moves), RT.Play(s, moves)) && AllReady(RT.Play(s, moves))
  {
    hide Shadows, AllReady, RT.Next, TextNext, Printable;
    if moves != [] {
      var n := |moves| - 1;
      assert moves[n] in moves;
      PlayShadows(t, s, moves[..n]);
      var t', s' := TextPlay(t, moves[..n]), RT.Play(s, moves[..n]);
      match moves[n] {
        case Ask(who) => AskShadows(t', s', who);
        case TakeUp(agree) => TakeUpShadows(t', s', agree);
        case Answer(response) => AnswerShadows(t', s', response);
      }
    }
  }

  /** Over text, clients and participant go through exactly the states they go through
      over the in-memory bus, with the same messages given to their callbacks and sent, up
      to addresses. */
  lemma TextRunIsMockRun(server: string, clients: map<string, Requester>, moves: seq<RT.Move>)
    requires PlainWord(server) && (forall who :: who in clients ==> Speaks(clients[who]))
    requires forall move :: move in moves ==> Sayable(move)
    ensures var t, s := TextPlay(TextStart(server, clients), moves), RT.Play(RT.Start(server, clients), moves);
      t.clients == s.clients && t.busy == Delivered(s.busy) && Mirrors(t.bus, s.bus) && SameLog(t.log, s.log)
  {
    hide Sayable, Speaks, TextPlay, RT.Play, PlainWord;
    assert Shadows(TextStart(server, clients), RT.Start(server, clients));
    PlayShadows(TextStart(server, clients), RT.Start(server, clients), moves);
  }
}
