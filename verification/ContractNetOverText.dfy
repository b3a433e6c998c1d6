/** The Contract Net over the text transport: it takes step by step the states it takes
    over the in-memory bus, up to the addresses that the text loses. */
module ContractNetOverText {
  import opened Options
  import opened AclMessages
  import opened AclTokens
  import opened AclCodec
  import opened MessageBus
  import opened Transport
  import opened Counting
  import opened ContractNet
  import opened SpokenMessages
  import opened TextShadows
  import CN = ContractNetSystem

  // ----- erasing the addresses -----

  function EraseInitiator(i: Initiator): Initiator {
    i.(cfp := EraseAddresses(i.cfp), proposals := EraseAll(i.proposals))
  }

  lemma ErasedCfp(i: Initiator, at: Moment)
    ensures CfpToSend(EraseInitiator(i), at) == EraseAddresses(CfpToSend(i, at))
  {
  }

  lemma ErasedVerdict(name: string, selected: seq<string>, m: Message)
    ensures Verdict(name, selected, EraseAddresses(m)).to == Verdict(name, selected, m).to
    ensures EraseAddresses(Verdict(name, selected, EraseAddresses(m)).msg) == EraseAddresses(Verdict(name, selected, m).msg)
  {
  }

  lemma {:induction false} ErasedVerdicts(name: string, selected: seq<string>, ms: seq<Message>)
    ensures SameMail(Verdicts(name, selected, EraseAll(ms)), Verdicts(name, selected, ms))
    ensures Winners(selected, EraseAll(ms)) == Winners(selected, ms)
  {
    if ms != [] {
      hide Verdict, EraseAddresses, SameMail, EraseAll;
      var n := |ms| - 1;
      EraseAllInit(ms);
      ErasedVerdicts(name, selected, ms[..n]);
      ErasedVerdict(name, selected, ms[n]);
      ErasedSender(ms[n]);
      SameMailAppend(Verdicts(name, selected, EraseAll(ms[..n])), Verdicts(name, selected, ms[..n]),
                     Verdict(name, selected, EraseAddresses(ms[n])), Verdict(name, selected, ms[n]));
    }
  }

  lemma SameCfps(a: Message, b: Message, ps: seq<string>)
    requires EraseAddresses(a) == EraseAddresses(b)
    ensures SameMail(Cfps(a, ps), Cfps(b, ps))
  {
    if ps != [] {
      hide EraseAddresses;
      SameCfps(a, b, ps[..|ps| - 1]);
    }
  }

  lemma ErasedSends(i: Initiator, at: Moment)
    ensures SameMail(Sends(EraseInitiator(i), at), Sends(i, at))
  {
    hide CfpToSend, EraseAddresses, Verdict;
    if i.phase == SendingCfp {
      ErasedCfp(i, at);
      ErasedTwice(CfpToSend(i, at));
      SameCfps(CfpToSend(EraseInitiator(i), at), CfpToSend(i, at), i.participants);
    } else if i.phase == HandlingProposals {
      ErasedVerdicts(i.name, at.selected, i.proposals);
    }
  }

  function EraseNote(n: Note): Note {
    if n.Silent? then n else n.(msg := EraseAddresses(n.msg))
  }

  lemma ErasedNote(a: Initiator, b: Initiator, got: Option<Message>)
    requires a.convId == b.convId && a.phase == b.phase
    ensures NoteOf(a, Delivered(got)) == EraseNote(NoteOf(b, got))
  {
  }

  lemma ErasedWait(i: Initiator, got: Option<Message>, at: Moment)
    requires i.phase != SendingCfp && i.phase != HandlingProposals
    ensures InitiatorNext(EraseInitiator(i), Delivered(got), at) == EraseInitiator(InitiatorNext(i, got, at))
  {
    hide CfpToSend, EraseAddresses, Winners, EraseAll, NoteOf, ConvId, Delivered;
    ErasedNote(EraseInitiator(i), i, got);
    if !NoteOf(i, got).Silent? {
      EraseAllAppend(i.proposals, NoteOf(i, got).msg);
    }
  }

  /** The initiator looks at no address. */
  lemma ErasedNext(i: Initiator, got: Option<Message>, at: Moment)
    ensures InitiatorNext(EraseInitiator(i), Delivered(got), at) == EraseInitiator(InitiatorNext(i, got, at))
  {
    hide CfpToSend, EraseAddresses, Winners, EraseAll, NoteOf, ConvId, Delivered, Polls;
    if i.phase == SendingCfp {
      ErasedCfp(i, at);
      SameConv(i, at);
    } else if i.phase == HandlingProposals {
      hide SameMail;
      ErasedVerdicts(i.name, at.selected, i.proposals);
    } else {
      hide InitiatorNext;
      ErasedWait(i, got, at);
    }
  }

  lemma SameConv(i: Initiator, at: Moment)
    ensures ConvId(EraseInitiator(i), at) == ConvId(i, at)
  {
  }

  /** Nor does a participant. */
  lemma ErasedParticipant(p: Participant, got: Option<Message>, reply: Message)
    ensures ParticipantNext(p, Delivered(got), reply) == ParticipantNext(p, got, reply)
    ensures ParticipantSends(p, Delivered(got), reply) == ParticipantSends(p, got, reply)
    ensures Executes(p, Delivered(got)) == Executes(p, got)
  {
  }

  // ----- the protocol over text -----

  datatype TextSystem = TextSystem(ini: Initiator, parts: map<string, Participant>, bus: Queues<string>, log: CN.Log)

  function TextStart(name: string, cfp: Message, participants: seq<string>): TextSystem {
    TextSystem(NewInitiator(name, cfp, participants), map p | p in participants :: NewParticipant(p), map[],
               CN.Log([], [], [], [], [], [], []))
  }

  /** The log after an action of the initiator, and after one of a participant. */
  function Logged(log: CN.Log, i: Initiator, got: Option<Message>, at: Moment): CN.Log {
    var noted := CN.Noted(log, NoteOf(i, got));
    noted.(asked := noted.asked + Sends(i, at),
           selected := if i.phase == HandlingProposals then at.selected else noted.selected)
  }

  function Answered(log: CN.Log, p: Participant, got: Option<Message>, reply: Message): CN.Log {
    var sent := CN.Mails(ParticipantSends(p, got, reply));
    log.(executed := log.executed + (if Executes(p, got) then sent else []), answered := log.answered + sent)
  }

  /** acl_send prints, acl_receive parses, and a text that cannot be read is a timeout. */
  function TextNext(t: TextSystem, move: CN.Move): TextSystem {
    match move
    case Initiate(at) =>
      if t.ini.done then t
      else
        var got := if Polls(t.ini, at) then Decoded(Front(t.bus, t.ini.name)) else None;
        t.(ini := InitiatorNext(t.ini, got, at),
           bus := SendTexts(if Polls(t.ini, at) then Polled(t.bus, t.ini.name) else t.bus, Sends(t.ini, at)),
           log := Logged(t.log, t.ini, got, at))
    case Participate(who, reply) =>
      if who !in t.parts || t.parts[who].done || !MayReturn(t.parts[who], reply) then t
      else
        var p := t.parts[who];
        var got := Decoded(Front(t.bus, p.name));
        t.(parts := t.parts[who := ParticipantNext(p, got, reply)],
           bus := SendTexts(Polled(t.bus, p.name), ParticipantSends(p, got, reply)),
           log := Answered(t.log, p, got, reply))
  }

  function TextPlay(t: TextSystem, moves: seq<CN.Move>): TextSystem {
    if moves == [] then t else TextNext(TextPlay(t, moves[..|moves| - 1]), moves[|moves| - 1])
  }

  /** The callbacks answer with printable messages, the clock with characters of words. */
  ghost predicate Sayable(move: CN.Move) {
    match move
    case Initiate(at) => Suffix(at.stamp)
    case Participate(_, reply) => Printable(reply)
  }

  /** Everything that may be sent on from here is printable. */
  ghost predicate AllReady(s: CN.System) {
    && PlainWord(s.ini.name) && Printable(s.ini.cfp) && Canonical(s.ini.convId)
    && (forall p :: p in s.parts ==> PlainWord(p) && s.parts[p].name == p && Canonical(s.parts[p].convId))
    && (forall m :: m in s.ini.proposals ==> Ready(m))
    && BusReady(s.bus)
  }

  lemma SendsReady(i: Initiator, at: Moment)
    requires PlainWord(i.name) && Printable(i.cfp) && Suffix(at.stamp) && forall m :: m in i.proposals ==> Ready(m)
    ensures forall e :: e in Sends(i, at) ==> Ready(e.msg)
    ensures Printable(CfpToSend(i, at)) && Canonical(ConvId(i, at))
  {
    CfpReady(i, at);
    hide Printable, PlainWord, CfpToSend, Verdicts, Suffix;
    CfpsReady(CfpToSend(i, at), i.participants);
    VerdictsReady(i.name, at.selected, i.proposals);
  }

  lemma InitiateReady(s: CN.System, at: Moment)
    requires AllReady(s) && Suffix(at.stamp) && !s.ini.done
    ensures AllReady(CN.Next(s, CN.Initiate(at)))
  {
    hide Ready, Printable, PlainWord, Canonical, Sends, CfpToSend, ConvId, Suffix;
    SendsReady(s.ini, at);
    PolledReady(s.bus, s.ini.name);
    SendAllReady(if Polls(s.ini, at) then Polled(s.bus, s.ini.name) else s.bus, Sends(s.ini, at));
    BusOf(s.ini, s.bus, at);
    hide InitiatorBus, BusReady;
    InitiatorReady(s.ini, Seen(s.ini, s.bus, at), at);
  }

  lemma BusOf(i: Initiator, bus: Queues<Message>, at: Moment)
    ensures InitiatorBus(i, bus, at) == SendAll(if Polls(i, at) then Polled(bus, i.name) else bus, Sends(i, at))
  {
  }

  lemma InitiatorReady(i: Initiator, got: Option<Message>, at: Moment)
    requires forall m :: m in i.proposals ==> Ready(m)
    requires got.Some? ==> Ready(got.value)
    ensures var i' := InitiatorNext(i, got, at);
      && i'.name == i.name && (i'.cfp == i.cfp || i'.cfp == CfpToSend(i, at)) && (i'.convId == i.convId || i'.convId == ConvId(i, at))
      && forall m :: m in i'.proposals ==> Ready(m)
  {
    hide Ready, CfpToSend, ConvId, Winners;
  }

  lemma ParticipateReady(s: CN.System, who: string, reply: Message)
    requires AllReady(s) && Printable(reply) && CN.Enabled(s, CN.Participate(who, reply))
    ensures AllReady(CN.Next(s, CN.Participate(who, reply)))
  {
    hide Ready, Printable, PlainWord, Canonical, BusReady;
    var p, got := s.parts[who], Front(s.bus, who);
    PolledReady(s.bus, who);
    if got.Some? {
      AnswerReady(p, got.value, reply);
      ReadyConv(got.value);
    }
    SendAllReady(Polled(s.bus, who), ParticipantSends(p, got, reply));
  }

  lemma ReadyConv(m: Message)
    requires Ready(m)
    ensures Canonical(m.conversationId)
  {
  }

  // ----- the refinement -----

  /** The callbacks were given the same messages, without their addresses. */
  predicate SameLog(a: CN.Log, b: CN.Log) {
    && a.refusals == EraseAll(b.refusals) && a.results == EraseAll(b.results) && a.late == EraseAll(b.late)
    && a.executed == b.executed && a.answered == b.answered && a.selected == b.selected
    && SameMail(a.asked, b.asked)
  }

  lemma NotedShadows(x: CN.Log, y: CN.Log, n: Note)
    requires SameLog(x, y)
    ensures SameLog(CN.Noted(x, EraseNote(n)), CN.Noted(y, n))
  {
    hide EraseAddresses, EraseAll, SameMail;
    if !n.Silent? {
      EraseAllAppend(y.refusals, n.msg);
      EraseAllAppend(y.results, n.msg);
      EraseAllAppend(y.late, n.msg);
    }
  }

  lemma SameConversation(a: Initiator, b: Initiator)
    requires EraseInitiator(a) == EraseInitiator(b)
    ensures a.convId == b.convId && a.phase == b.phase
  {
    hide EraseAll;
  }

  lemma LoggedShadows(x: CN.Log, y: CN.Log, a: Initiator, b: Initiator, got: Option<Message>, at: Moment)
    requires SameLog(x, y) && EraseInitiator(a) == EraseInitiator(b)
    ensures SameLog(Logged(x, a, Delivered(got), at), Logged(y, b, got, at))
  {
    hide EraseInitiator, EraseAll, EraseNote, SameMail, Sends, CN.Noted, NoteOf, Delivered;
    SameConversation(a, b);
    ErasedNote(a, b, got);
    NotedShadows(x, y, NoteOf(b, got));
    SameSends(a, b, at);
    SameMailConcat(CN.Noted(x, NoteOf(a, Delivered(got))).asked, CN.Noted(y, NoteOf(b, got)).asked, Sends(a, at), Sends(b, at));
  }

  lemma NextLog(s: CN.System, move: CN.Move)
    requires CN.Enabled(s, move)
    ensures CN.Next(s, move).log == match move
      case Initiate(at) => Logged(s.log, s.ini, Seen(s.ini, s.bus, at), at)
      case Participate(who, reply) => Answered(s.log, s.parts[who], Front(s.bus, who), reply)
  {
    hide InitiatorNext, InitiatorBus, ParticipantNext, ParticipantBus, CN.Noted, NoteOf, Sends, ParticipantSends;
  }

  /** The text system is the message system up to addresses. */
  ghost predicate Shadows(t: TextSystem, s: CN.System) {
    && EraseInitiator(t.ini) == EraseInitiator(s.ini) && IniReady(t.ini)
    && t.parts == s.parts && Mirrors(t.bus, s.bus) && SameLog(t.log, s.log)
  }

  /** What this initiator may send is printable. */
  ghost predicate IniReady(i: Initiator) {
    PlainWord(i.name) && Printable(i.cfp) && forall m :: m in i.proposals ==> Ready(m)
  }

  lemma ShadowFront(t: TextSystem, s: CN.System, name: string)
    requires Shadows(t, s)
    ensures Decoded(Front(t.bus, name)) == Delivered(Front(s.bus, name))
    ensures Mirrors(Polled(t.bus, name), Polled(s.bus, name))
  {
    hide Mirrors, EraseInitiator, IniReady, Decoded, Delivered, SameLog;
    MirrorsReceive(t.bus, s.bus, name);
  }

  lemma ErasedPolls(i: Initiator, at: Moment)
    ensures Polls(EraseInitiator(i), at) == Polls(i, at) && EraseInitiator(i).name == i.name
    ensures EraseInitiator(i).done == i.done
  {
  }

  lemma SameInitiators(a: Initiator, b: Initiator, at: Moment)
    requires EraseInitiator(a) == EraseInitiator(b)
    ensures Polls(a, at) == Polls(b, at) && a.name == b.name && a.done == b.done
  {
    hide Polls, EraseInitiator;
    ErasedPolls(a, at);
    ErasedPolls(b, at);
  }

  lemma DeliveredTwice(got: Option<Message>)
    ensures Delivered(Delivered(got)) == Delivered(got)
  {
    if got.Some? {
      ErasedTwice(got.value);
    }
  }

  /** Initiators that are the same but for addresses stay so. */
  lemma SameNext(a: Initiator, b: Initiator, got: Option<Message>, at: Moment)
    requires EraseInitiator(a) == EraseInitiator(b)
    ensures EraseInitiator(InitiatorNext(a, Delivered(got), at)) == EraseInitiator(InitiatorNext(b, got, at))
  {
    hide EraseInitiator, InitiatorNext, Delivered;
    DeliveredTwice(got);
    ErasedNext(a, Delivered(got), at);
    ErasedNext(b, got, at);
  }

  lemma SameMailVia(x: seq<Envelope>, a: seq<Envelope>, b: seq<Envelope>)
    requires SameMail(x, a) && SameMail(x, b)
    ensures SameMail(a, b)
  {
    hide EraseAddresses;
  }

  lemma SameSends(a: Initiator, b: Initiator, at: Moment)
    requires EraseInitiator(a) == EraseInitiator(b)
    ensures SameMail(Sends(a, at), Sends(b, at))
  {
    hide EraseInitiator, Sends, SameMail;
    ErasedSends(a, at);
    ErasedSends(b, at);
    SameMailVia(Sends(EraseInitiator(a), at), Sends(a, at), Sends(b, at));
  }

  lemma DeliveredReady(got: Option<Message>)
    requires got.Some? ==> Ready(got.value)
    ensures Delivered(got).Some? ==> Ready(Delivered(got).value)
  {
    hide Canonical, PlainWord;
    if got.Some? {
      PrintableErased(got.value);
    }
  }

  lemma SeenReady(s: CN.System, at: Moment)
    requires BusReady(s.bus)
    ensures Seen(s.ini, s.bus, at).Some? ==> Ready(Seen(s.ini, s.bus, at).value)
  {
    hide Ready, BusReady;
    PolledReady(s.bus, s.ini.name);
  }

  lemma SendsPrintable(i: Initiator, at: Moment)
    requires IniReady(i) && Suffix(at.stamp)
    ensures forall e :: e in Sends(i, at) ==> Printable(e.msg)
    ensures Printable(CfpToSend(i, at))
  {
    SendsReady(i, at);
    hide Printable, Sends, CfpToSend;
  }

  lemma InitiateShadows(t: TextSystem, s: CN.System, at: Moment)
    requires Shadows(t, s) && AllReady(s) && Suffix(at.stamp) && !s.ini.done
    ensures Shadows(TextNext(t, CN.Initiate(at)), CN.Next(s, CN.Initiate(at)))
  {
    hide Mirrors, EraseInitiator, Decoded, Delivered, InitiatorNext, Sends, CfpToSend, Polls, Printable, PlainWord, Canonical,
         Suffix, SameMail, Ready, BusReady, SameLog, Logged;
    SameInitiators(t.ini, s.ini, at);
    ShadowFront(t, s, s.ini.name);
    var got := Seen(s.ini, s.bus, at);
    assert Delivered(None) == None by { NothingDelivered(); }
    SameNext(t.ini, s.ini, got, at);
    SameSends(t.ini, s.ini, at);
    SendsPrintable(t.ini, at);
    SeenReady(s, at);
    DeliveredReady(got);
    LoggedShadows(t.log, s.log, t.ini, s.ini, got, at);
    NextLog(s, CN.Initiate(at));
    InitiatorReady(t.ini, Delivered(got), at);
    SendMirrors(if Polls(t.ini, at) then Polled(t.bus, t.ini.name) else t.bus,
                if Polls(s.ini, at) then Polled(s.bus, s.ini.name) else s.bus, Sends(t.ini, at), Sends(s.ini, at));
  }

  lemma ParticipateShadows(t: TextSystem, s: CN.System, who: string, reply: Message)
    requires Shadows(t, s) && AllReady(s) && Printable(reply) && CN.Enabled(s, CN.Participate(who, reply))
    ensures Shadows(TextNext(t, CN.Participate(who, reply)), CN.Next(s, CN.Participate(who, reply)))
  {
    hide Mirrors, EraseInitiator, IniReady, Decoded, Delivered, ParticipantNext, Printable, PlainWord, Canonical, Ready,
         EraseAll, SameMail;
    var p, got := s.parts[who], Front(s.bus, who);
    ShadowFront(t, s, who);
    ErasedParticipant(p, got, reply);
    NextLog(s, CN.Participate(who, reply));
    PolledReady(s.bus, who);
    if got.Some? {
      AnswerReady(p, got.value, reply);
      ReadyPrintable(Answer(p, got.value, reply));
    }
    var es := ParticipantSends(p, got, reply);
    SameMailSelf(es);
    SendMirrors(Polled(t.bus, who), Polled(s.bus, who), es, es);
  }

  lemma StepShadows(t: TextSystem, s: CN.System, move: CN.Move)
    requires Shadows(t, s) && AllReady(s) && Sayable(move)
    ensures Shadows(TextNext(t, move), CN.Next(s, move)) && AllReady(CN.Next(s, move))
  {
    hide Mirrors, EraseInitiator, IniReady, AllReady, Printable, Suffix, SameLog;
    if CN.Enabled(s, move) {
      match move {
        case Initiate(at) =>
          InitiateShadows(t, s, at);
          InitiateReady(s, at);
        case Participate(who, reply) =>
          ParticipateShadows(t, s, who, reply);
          ParticipateReady(s, who, reply);
      }
    } else {
      SameInitiators(t.ini, s.ini, Moment("", false, []));
    }
  }

  lemma {:induction false} PlayShadows(t: TextSystem, s: CN.System, moves: seq<CN.Move>)
    requires Shadows(t, s) && AllReady(s) && forall move :: move in moves ==> Sayable(move)
    ensures Shadows(TextPlay(t, moves), CN.Play(s, moves)) && AllReady(CN.Play(s, moves))
  {
    hide Shadows, AllReady, Sayable, CN.Next, TextNext;
    if moves != [] {
      var n := |moves| - 1;
      assert moves[n] in moves;
      PlayShadows(t, s, moves[..n]);
      StepShadows(TextPlay(t, moves[..n]), CN.Play(s, moves[..n]), moves[n]);
    }
  }

  /** Over text the Contract Net goes through exactly the states it goes through over
      the in-memory bus: the same phases, counters and conversation, the same proposals
      up to addresses, the same participants, the same messages given to the callbacks;
      and every text in a queue can be read as the message it stands for, so that no
      unreadable text ever looks like a timeout. */
  lemma TextRunIsMockRun(name: string, cfp: Message, participants: seq<string>, moves: seq<CN.Move>)
    requires PlainWord(name) && Printable(cfp) && (forall p :: p in participants ==> PlainWord(p))
    requires forall move :: move in moves ==> Sayable(move)
    ensures var t, s := TextPlay(TextStart(name, cfp, participants), moves), CN.Play(CN.Start(name, cfp, participants), moves);
      EraseInitiator(t.ini) == EraseInitiator(s.ini) && t.parts == s.parts && Mirrors(t.bus, s.bus) && SameLog(t.log, s.log)
  {
    hide Sayable, TextPlay, CN.Play, PlainWord, Printable, Canonical;
    EmptyIsCanonical();
    assert Shadows(TextStart(name, cfp, participants), CN.Start(name, cfp, participants));
    PlayShadows(TextStart(name, cfp, participants), CN.Start(name, cfp, participants), moves);
  }
}
