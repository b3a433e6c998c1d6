/** What becomes of the farewell: a subscriber reads one message after its CANCEL and
    ends, and that need not be the publisher's answer to the CANCEL. */
module SubscribeFarewell {
  import opened Options
  import opened AclMessages
  import opened MessageBus
  import opened SubscribeNotify
  import opened SubscribeDelivery

  const NOW := Moment("1", false, false)
  const LEAVE := Moment("1", false, true)

  /** A move that brings a notification to a subscribed agent. */
  predicate Announces(move: Move, who: string) {
    move.Notify? || (move.NotifyOne? && move.who == who)
  }

  predicate Acts(move: Move, who: string) {
    move.Listen? && move.who == who
  }

  predicate ListensNowhere(moves: seq<Move>, who: string) {
    forall m :: m in moves ==> !Acts(m, who)
  }

  predicate Unannounced(moves: seq<Move>, who: string) {
    forall m :: m in moves ==> !Announces(m, who)
  }

  /** The last action of an agent that waits for the acknowledgement of its CANCEL. */
  function LastAction(t: Talk): Talk {
    ListenTo(t, NOW, [], "")
  }

  /** What one move does to the conversation of an agent that waits for the acknowledgement
      of its CANCEL. */
  predicate Passes(t: Talk, t': Talk, move: Move, served: bool, answer: Answer, pub: string, who: string) {
    if served then
      && Leaving(t) && Left(t') && t'.handled == t.handled && t'.done == t.done && t'.conv == t.conv
      && var last := if answer.farewell == "" then [] else [Notice(pub, t.conv, answer.farewell, "")];
         t'.mail == t.mail + last && t'.feed == t.feed + last
    else if Acts(move, who) then t' == if t.done then t else LastAction(t)
    else
      && t'.handled == t.handled && t'.done == t.done && t'.conv == t.conv && t'.phase == t.phase
      && t'.inbox == t.inbox && t'.member == t.member
      && (if Announces(move, who) && t.member.Some? then |t'.mail| == |t.mail| + 1 else t'.mail == t.mail)
      && (t.member.None? ==> t' == t)
  }

  /** The publisher takes the message of who. */
  predicate Serves(s: System, move: Move, who: string) {
    move.Serve? && Front(s.bus, s.pub.name).Some? && Front(s.bus, s.pub.name).value.sender.name == who
  }

  lemma LocalServedCancel(t: Talk, m: Message, p: Publisher, answer: Answer)
    requires Fits(t) && t.phase == WaitingCancelAck && t.inbox != [] && t.inbox[0] == m
    ensures Passes(t, ServedTalk(t, m, p, answer), Serve(answer), true, answer, p.name, "")
    ensures Leaving(t)
  {
    LocalFarewell(t, m, p, answer);
  }

  lemma NotifiedPasses(t: Talk, t': Talk, p: string, content: string, ontology: string, meant: bool, move: Move, who: string, answer: Answer)
    requires Notified(t, t', NoticesFor(t, p, content, ontology, meant)) && meant == Announces(move, who)
    requires !Acts(move, who)
    ensures Passes(t, t', move, false, answer, p, who)
  {
    if !(meant && t.member.Some?) {
      assert t.mail + [] == t.mail && t.feed + [] == t.feed;
    }
  }

  lemma AnyMove(s: System, move: Move, who: string, answer: Answer)
    requires Inv(s) && who in s.subs && s.subs[who].phase == WaitingCancelAck
    requires move.Serve? ==> move.answer == answer
    ensures SubOk(Next(s, move), who)
    ensures Passes(TalkOf(s, who), TalkOf(Next(s, move), who), move, Serves(s, move, who), answer, s.pub.name, who)
  {
    hide Inv, Fits, Passes, Notified, NoticesFor, TalkOf, ServedTalk, Next;
    InvParts(s, who);
    match move {
      case Listen(w, at) =>
        if w == who {
          OwnListen(s, who, at, answer);
        } else {
          OthersListen(s, w, at, who, answer);
        }
      case Serve(_) => OthersServe(s, answer, who);
      case Notify(content, ontology) =>
        NotifyTalk(s, content, ontology, who);
        NotifiedPasses(TalkOf(s, who), TalkOf(Next(s, move), who), s.pub.name, content, ontology, true, move, who, answer);
      case NotifyOne(to, content, ontology) =>
        NotifyOneTalk(s, to, content, ontology, who);
        NotifiedPasses(TalkOf(s, who), TalkOf(Next(s, move), who), s.pub.name, content, ontology, to == who, move, who, answer);
    }
  }

  lemma OwnListen(s: System, who: string, at: Moment, answer: Answer)
    requires Inv(s) && who in s.subs && s.subs[who].phase == WaitingCancelAck
    ensures SubOk(s, who) && SubOk(Next(s, Listen(who, at)), who)
    ensures Passes(TalkOf(s, who), TalkOf(Next(s, Listen(who, at)), who), Listen(who, at), false, answer, s.pub.name, who)
  {
    hide Inv, Fits, TalkOf, ListenTo, ConvId, SubscriberSends, SentMessages;
    InvParts(s, who);
    TalkPhase(s, who);
    if s.subs[who].done {
      assert Next(s, Listen(who, at)) == s;
    } else {
      hide Next;
      ListenTalk(s, who, at);
      SentIsOwn(s, who, at);
      AnyMoment(TalkOf(s, who), at, ConvId(s.subs[who], at));
    }
  }

  lemma AnyMoment(t: Talk, at: Moment, conv: string)
    requires t.phase == WaitingCancelAck
    ensures ListenTo(t, at, [], conv) == LastAction(t)
  {
  }

  lemma SameTalkPasses(t: Talk, move: Move, answer: Answer, pub: string, who: string)
    requires !Announces(move, who) && !Acts(move, who)
    ensures Passes(t, t, move, false, answer, pub, who)
  {
  }

  lemma OthersListen(s: System, w: string, at: Moment, who: string, answer: Answer)
    requires Inv(s) && who in s.subs && w != who
    ensures SubOk(Next(s, Listen(w, at)), who)
    ensures SubOk(s, who) && Passes(TalkOf(s, who), TalkOf(Next(s, Listen(w, at)), who), Listen(w, at), false, answer, s.pub.name, who)
  {
    hide Inv, Fits, Passes, TalkOf;
    InvParts(s, who);
    SameTalkPasses(TalkOf(s, who), Listen(w, at), answer, s.pub.name, who);
    if w in s.subs && w in s.handled && !s.subs[w].done {
      InvParts(s, w);
      ListenOthers(s, w, at, who);
    }
  }

  lemma OthersServe(s: System, answer: Answer, who: string)
    requires Inv(s) && who in s.subs && s.subs[who].phase == WaitingCancelAck
    ensures SubOk(Next(s, Serve(answer)), who) && SubOk(s, who)
    ensures Passes(TalkOf(s, who), TalkOf(Next(s, Serve(answer)), who), Serve(answer), Serves(s, Serve(answer), who), answer, s.pub.name, who)
  {
    hide Inv, Fits, Passes, TalkOf, ServedTalk;
    InvParts(s, who);
    SameTalkPasses(TalkOf(s, who), Serve(answer), answer, s.pub.name, who);
    var front := Front(s.bus, s.pub.name);
    if front.None? {
      assert s.events + [] == s.events;
      assert Next(s, Serve(answer)) == s;
    } else {
      hide Next;
      var m := front.value;
      ServeSetup(s, answer, m);
      if m.sender.name == who {
        ServeTalk(s, answer, m);
        TalkPhase(s, who);
        LocalServedCancel(TalkOf(s, who), m, s.pub, answer);
        AnyName(TalkOf(s, who), TalkOf(Next(s, Serve(answer)), who), answer, s.pub.name, who);
      } else {
        ServeOthers(s, answer, m, who);
      }
    }
  }

  lemma AnyName(t: Talk, t': Talk, answer: Answer, pub: string, who: string)
    requires Passes(t, t', Serve(answer), true, answer, pub, "")
    ensures Passes(t, t', Serve(answer), true, answer, pub, who)
  {
  }

  // ----- between the CANCEL and its being served, and after it -----

  /** Until the CANCEL is served: the agent is done once it has acted, and before that its
      mail only grows, by the announcements. */
  predicate Waits(t: Talk, t': Talk, acted: bool, silent: bool) {
    && t'.phase == t.phase && t'.conv == t.conv && t'.done == acted
    && (!acted ==> t'.handled == t.handled && |t'.mail| >= |t.mail| && (silent <==> |t'.mail| == |t.mail|))
  }

  /** Where moves lead the conversation: acted says whether the agent was among those that
      took a turn, silent that nothing was announced to it. */
  predicate Outcome(t: Talk, t': Talk, acted: bool, silent: bool) {
    && t'.phase == WaitingCancelAck
    && (!t.done && Leaving(t') ==> Waits(t, t', acted, silent))
    && (Left(t) ==> Left(t') && t' == if t.done || !acted then t else LastAction(t))
  }

  lemma OutcomeHere(t: Talk)
    requires t.phase == WaitingCancelAck
    ensures Outcome(t, t, false, true)
  {
  }

  lemma OutcomeStep(t0: Talk, t: Talk, t': Talk, acted: bool, silent: bool, move: Move, served: bool, answer: Answer, pub: string, who: string)
    requires Outcome(t0, t, acted, silent) && Passes(t, t', move, served, answer, pub, who)
    requires t0.phase == WaitingCancelAck && Fits(t) && Fits(t')
    ensures Outcome(t0, t', acted || Acts(move, who), silent && !Announces(move, who))
  {
  }

  lemma OneMoreMove(moves: seq<Move>, who: string)
    requires moves != []
    ensures var n := |moves| - 1;
      && (Unannounced(moves, who) <==> Unannounced(moves[..n], who) && !Announces(moves[n], who))
      && (ListensNowhere(moves, who) <==> ListensNowhere(moves[..n], who) && !Acts(moves[n], who))
  {
    assert moves == moves[..|moves| - 1] + [moves[|moves| - 1]];
  }

  /** Whatever happens from the CANCEL on, in any order and with any timeouts. */
  lemma {:induction false} WaitingTalk(s: System, moves: seq<Move>, who: string)
    requires Inv(s) && who in s.subs && s.subs[who].phase == WaitingCancelAck
    ensures var u := Play(s, moves);
      && Inv(u) && SubOk(u, who) && SubOk(s, who) && u.subs[who].phase == WaitingCancelAck && u.pub.name == s.pub.name
      && Outcome(TalkOf(s, who), TalkOf(u, who), !ListensNowhere(moves, who), Unannounced(moves, who))
  {
    hide Inv, Fits, Passes, Outcome, TalkOf, Next, Announces, Acts;
    InvParts(s, who);
    TalkPhase(s, who);
    if moves == [] {
      OutcomeHere(TalkOf(s, who));
    } else {
      hide ListensNowhere, Unannounced;
      var n := |moves| - 1;
      var move := moves[n];
      WaitingTalk(s, moves[..n], who);
      var u := Play(s, moves[..n]);
      var answer := if move.Serve? then move.answer else Answer(false, "");
      InvParts(u, who);
      AnyMove(u, move, who, answer);
      PlayKeepsInv(s, moves);
      NamesStay(s, moves);
      InvParts(Next(u, move), who);
      OneMoreMove(moves, who);
      OutcomeStep(TalkOf(s, who), TalkOf(u, who), TalkOf(Next(u, move), who), !ListensNowhere(moves[..n], who),
                  Unannounced(moves[..n], who), move, Serves(u, move, who), answer, u.pub.name, who);
      TalkPhase(Next(u, move), who);
      OutcomePhase(TalkOf(s, who), TalkOf(Next(u, move), who), !ListensNowhere(moves, who), Unannounced(moves, who));
    }
  }

  lemma OutcomePhase(t: Talk, t': Talk, acted: bool, silent: bool)
    requires Outcome(t, t', acted, silent)
    ensures t'.phase == WaitingCancelAck
  {
  }

  /** The run: moves up to the CANCEL, any moves until it is served, the publisher serving
      it, and any moves after that. */
  function Cancelled(start: System, before: seq<Move>, who: string, cancel: Moment): System {
    Next(Play(start, before), Listen(who, cancel))
  }

  function Waited(start: System, before: seq<Move>, who: string, cancel: Moment, waiting: seq<Move>): System {
    Play(Cancelled(start, before, who, cancel), waiting)
  }

  function Served(start: System, before: seq<Move>, who: string, cancel: Moment, waiting: seq<Move>, answer: Answer, after: seq<Move>): System {
    Play(Next(Waited(start, before, who, cancel, waiting), Serve(answer)), after)
  }

  /** The publisher takes who's message in the state that the waiting leads to. */
  predicate CancelIsNext(u: System, who: string) {
    Serves(u, Serve(Answer(true, "")), who)
  }

  lemma CancelTalk(s: System, who: string, cancel: Moment)
    requires Inv(s) && who in s.subs && s.subs[who].phase == WaitingNotify && cancel.cancel
    ensures var u := Next(s, Listen(who, cancel));
      && Inv(u) && SubOk(s, who) && SubOk(u, who) && u.pub.name == s.pub.name
      && u.subs[who].phase == WaitingCancelAck && !u.subs[who].done && u.subs[who].convId == s.subs[who].convId
      && TalkOf(u, who).mail == Queue(s.bus, who)
  {
    hide Inv, Fits;
    InvParts(s, who);
    ListenKeepsInv(s, who, cancel);
    hide SubscriberBus;
    assert !s.subs[who].done by { LocalListening(TalkOf(s, who)); }
    ListenTalk(s, who, cancel);
  }

  lemma LocalListening(t: Talk)
    requires Fits(t) && t.phase == WaitingNotify
    ensures !t.done
  {
  }

  /** The conversation once the CANCEL has been served with a farewell. */
  lemma ServedCancel(u: System, answer: Answer, who: string)
    requires Inv(u) && who in u.subs && u.subs[who].phase == WaitingCancelAck && CancelIsNext(u, who)
    ensures var v := Next(u, Serve(answer));
      && Inv(v) && SubOk(u, who) && SubOk(v, who) && v.subs[who].phase == WaitingCancelAck && v.pub.name == u.pub.name
      && Leaving(TalkOf(u, who)) && Left(TalkOf(v, who))
      && TalkOf(v, who).done == TalkOf(u, who).done && TalkOf(v, who).conv == TalkOf(u, who).conv
      && TalkOf(v, who).handled == TalkOf(u, who).handled
      && (answer.farewell != "" ==>
            TalkOf(v, who).mail == TalkOf(u, who).mail + [Notice(u.pub.name, u.subs[who].convId, answer.farewell, "")])
  {
    hide Inv, Fits, TalkOf, Leaving, Left;
    InvParts(u, who);
    AnyMove(u, Serve(answer), who, answer);
    ServeKeepsInv(u, answer);
    TalkPhase(u, who);
    TalkPhase(Next(u, Serve(answer)), who);
    hide Next, Notice;
    LeftPhase(TalkOf(Next(u, Serve(answer)), who));
    ServedName(u, answer);
  }

  lemma LeftPhase(t: Talk)
    requires Left(t)
    ensures t.phase == WaitingCancelAck
  {
  }

  lemma ServedName(u: System, answer: Answer)
    ensures Next(u, Serve(answer)).pub.name == u.pub.name
  {
  }

  lemma WaitsFacts(t: Talk, t': Talk, acted: bool, silent: bool)
    requires !t.done && Leaving(t') && Outcome(t, t', acted, silent)
    ensures t'.done == acted && t'.conv == t.conv && (!acted ==> (t'.mail == [] <==> t.mail == [] && silent))
  {
  }

  lemma LeftOutcome(t: Talk, t': Talk, acted: bool, silent: bool)
    requires Left(t) && Outcome(t, t', acted, silent)
    ensures t' == if t.done || !acted then t else LastAction(t)
  {
  }

  /** The conversation along the run. */
  lemma FarewellRun(publisher: string, wishes: map<string, (string, string)>, who: string, before: seq<Move>,
                    cancel: Moment, waiting: seq<Move>, answer: Answer, after: seq<Move>)
    returns (x: Talk, kept: seq<Message>)
    requires publisher !in wishes && who in wishes && cancel.cancel && answer.farewell != ""
    requires who in Play(Start(publisher, wishes), before).subs
      && Play(Start(publisher, wishes), before).subs[who].phase == WaitingNotify
    requires CancelIsNext(Waited(Start(publisher, wishes), before, who, cancel, waiting), who)
    ensures var s := Play(Start(publisher, wishes), before);
      var v := Served(Start(publisher, wishes), before, who, cancel, waiting, answer, after);
      && Inv(v) && SubOk(v, who) && v.pub.name == publisher && v.subs[who].phase == WaitingCancelAck
      && Left(x) && Fits(x) && x.mail == kept + [Notice(publisher, s.subs[who].convId, answer.farewell, "")]
      && x.done == !ListensNowhere(waiting, who)
      && (!x.done ==> (kept == [] <==> Queue(s.bus, who) == [] && Unannounced(waiting, who)))
      && TalkOf(v, who) == if x.done || ListensNowhere(after, who) then x else LastAction(x)
  {
    hide Inv, Play, Next, Fits, TalkOf, Leaving, Left, Outcome, Notice, LastAction, CancelIsNext, ListensNowhere, Unannounced;
    var start := Start(publisher, wishes);
    StartInv(publisher, wishes);
    PlayKeepsInv(start, before);
    NamesStay(start, before);
    var s := Play(start, before);
    CancelTalk(s, who, cancel);
    var c := Cancelled(start, before, who, cancel);
    WaitingTalk(c, waiting, who);
    var u := Waited(start, before, who, cancel, waiting);
    ServedCancel(u, answer, who);
    var after0 := Next(u, Serve(answer));
    WaitingTalk(after0, after, who);
    InvParts(after0, who);
    TalkPhase(c, who);
    TalkPhase(u, who);
    WaitsFacts(TalkOf(c, who), TalkOf(u, who), !ListensNowhere(waiting, who), Unannounced(waiting, who));
    x, kept := TalkOf(after0, who), TalkOf(u, who).mail;
    LeftOutcome(x, TalkOf(Play(after0, after), who), !ListensNowhere(after, who), Unannounced(after, who));
  }

  /** What has become of the farewell that x had queued behind kept. */
  lemma LocalFate(x: Talk, kept: seq<Message>, farewell: Message, t: Talk, acted: bool)
    requires Left(x) && Fits(x) && x.mail == kept + [farewell]
    requires t == if x.done || !acted then x else LastAction(x)
    ensures t.done == (x.done || acted)
    ensures t.feed != [] && t.feed[|t.feed| - 1] == farewell
    ensures t.handled == t.feed <==> !x.done && acted && kept == []
    ensures t.handled != t.feed ==> t.mail != [] && t.mail[|t.mail| - 1] == farewell
  {
    HeadOfFeed(x);
    assert x.feed == x.handled + kept + [farewell];
    if kept != [] {
      assert (kept + [farewell])[1..] == kept[1..] + [farewell];
    }
  }

  /** When the farewell is handled, in every state of every run in which who sends its
      CANCEL and the publisher serves it with a farewell: exactly when nothing was queued
      at the CANCEL, nothing was announced to who until it was served, and who took its
      last action after it was served, not before. Otherwise a notification or a timeout
      is taken for the acknowledgement, and the farewell stays the last message in the
      queue for ever. */
  lemma FarewellExact(publisher: string, wishes: map<string, (string, string)>, who: string, before: seq<Move>,
                      cancel: Moment, waiting: seq<Move>, answer: Answer, after: seq<Move>)
    requires publisher !in wishes && who in wishes && cancel.cancel && answer.farewell != ""
    requires who in Play(Start(publisher, wishes), before).subs
      && Play(Start(publisher, wishes), before).subs[who].phase == WaitingNotify
    requires CancelIsNext(Waited(Start(publisher, wishes), before, who, cancel, waiting), who)
    ensures var s := Play(Start(publisher, wishes), before);
      var w := Served(Start(publisher, wishes), before, who, cancel, waiting, answer, after);
      var farewell := Notice(publisher, s.subs[who].convId, answer.farewell, "");
      && who in w.subs && who in w.handled
      && var feed, queued := Feed(w.events, publisher, who), Queue(w.bus, who);
      && (w.subs[who].done <==> !ListensNowhere(waiting, who) || !ListensNowhere(after, who))
      && feed != [] && feed[|feed| - 1] == farewell
      && (w.handled[who] == feed <==>
            && Queue(s.bus, who) == [] && Unannounced(waiting, who)
            && ListensNowhere(waiting, who) && !ListensNowhere(after, who))
      && (w.handled[who] != feed ==> queued != [] && queued[|queued| - 1] == farewell)
  {
    hide Inv, Play, Next, Fits, TalkOf, Left, Notice, Feed, LastAction, CancelIsNext, ListensNowhere, Unannounced;
    var x, kept := FarewellRun(publisher, wishes, who, before, cancel, waiting, answer, after);
    var s := Play(Start(publisher, wishes), before);
    var w := Served(Start(publisher, wishes), before, who, cancel, waiting, answer, after);
    var farewell := Notice(publisher, s.subs[who].convId, answer.farewell, "");
    LocalFate(x, kept, farewell, TalkOf(w, who), !ListensNowhere(after, who));
    TalkParts(w, who);
    TalkPhase(w, who);
  }

  /** The same at the last action, if it comes after the serving: it hands the farewell
      over exactly when the farewell is all that is queued. */
  lemma FarewellAtLastAction(publisher: string, wishes: map<string, (string, string)>, who: string, before: seq<Move>,
                             cancel: Moment, waiting: seq<Move>, answer: Answer, after: seq<Move>, last: Moment)
    requires publisher !in wishes && who in wishes && cancel.cancel && answer.farewell != ""
    requires who in Play(Start(publisher, wishes), before).subs
      && Play(Start(publisher, wishes), before).subs[who].phase == WaitingNotify
    requires CancelIsNext(Waited(Start(publisher, wishes), before, who, cancel, waiting), who)
    ensures var s := Play(Start(publisher, wishes), before);
      var v := Served(Start(publisher, wishes), before, who, cancel, waiting, answer, after);
      var w := Next(v, Listen(who, last));
      var farewell := Notice(publisher, s.subs[who].convId, answer.farewell, "");
      && who in v.subs && who in w.subs && who in w.handled && w.subs[who].done
      && (!v.subs[who].done ==>
            && (w.handled[who] == Feed(w.events, publisher, who) <==> Queue(v.bus, who) == [farewell])
            && (Queue(v.bus, who) == [farewell] <==> Queue(s.bus, who) == [] && Unannounced(waiting, who)))
  {
    hide Inv, Play, Next, Fits, TalkOf, Left, Notice, Feed, LastAction, CancelIsNext, ListensNowhere, Unannounced, Passes;
    var x, kept := FarewellRun(publisher, wishes, who, before, cancel, waiting, answer, after);
    var s := Play(Start(publisher, wishes), before);
    var v := Served(Start(publisher, wishes), before, who, cancel, waiting, answer, after);
    var w := Next(v, Listen(who, last));
    var farewell := Notice(publisher, s.subs[who].convId, answer.farewell, "");
    OwnListen(v, who, last, answer);
    ActsPasses(TalkOf(v, who), TalkOf(w, who), who, last, answer, v.pub.name);
    ListenName(v, who, last);
    TalkParts(v, who);
    TalkPhase(v, who);
    TalkParts(w, who);
    TalkPhase(w, who);
    LocalFate(x, kept, farewell, TalkOf(v, who), !ListensNowhere(after, who));
    LocalFate(x, kept, farewell, if x.done then x else LastAction(x), true);
  }

  lemma ActsPasses(t: Talk, t': Talk, who: string, at: Moment, answer: Answer, pub: string)
    requires Passes(t, t', Listen(who, at), false, answer, pub, who)
    ensures t' == if t.done then t else LastAction(t)
  {
  }

  lemma TalkParts(s: System, who: string)
    requires SubOk(s, who)
    ensures TalkOf(s, who).mail == Queue(s.bus, who) && TalkOf(s, who).handled == s.handled[who]
    ensures TalkOf(s, who).feed == Feed(s.events, s.pub.name, who)
  {
    hide Feed, Member;
  }

  lemma ListenName(s: System, who: string, at: Moment)
    ensures Next(s, Listen(who, at)).pub.name == s.pub.name
  {
  }

  // ----- runs in which the farewell is never read -----

  /** Subscribed, with nothing queued. */
  function Reading(): System {
    Next(Next(Next(Start("pub", map["sub" := ("", "")]), Listen("sub", NOW)), Serve(Answer(true, ""))), Listen("sub", NOW))
  }

  /** Subscribed, with the first notification not yet read. */
  function FirstNotified(): System {
    Next(Reading(), Notify("x", ""))
  }

  /** Then the CANCEL is sent and served with a farewell, and the subscriber acts. */
  function Farewelled(): System {
    Next(Next(Next(FirstNotified(), Listen("sub", LEAVE)), Serve(Answer(true, "bye"))), Listen("sub", NOW))
  }

  lemma Subscribed()
    ensures var s := Next(Start("pub", map["sub" := ("", "")]), Listen("sub", NOW));
      && s.subs == map["sub" := Subscriber("sub", "pub", "", "", WaitingAgree, false, "snp-sub-1")]
      && s.pub == Publisher("pub", map[]) && s.handled == map["sub" := []] && Queue(s.bus, "sub") == []
      && |Queue(s.bus, "pub")| == 1
      && var m := Queue(s.bus, "pub")[0];
         m.performative == Subscribe && m.sender == Named("sub") && m.conversationId == "snp-sub-1"
  {
    var start := Start("pub", map["sub" := ("", "")]);
    var sub := NewSubscriber("sub", "pub", "", "");
    assert start.subs == map["sub" := sub] && start.handled == map["sub" := []];
    assert Queue(start.bus, "pub") == [] && Queue(start.bus, "sub") == [] && start.pub == Publisher("pub", map[]);
    hide Start, Next, SubscribeMessage;
    ListenOne(start, "sub", NOW);
    SubscribeFields(sub, NOW);
    assert ConvId(sub, NOW) == "snp-sub-1";
    assert [] + [SubscribeMessage(sub, NOW)] == [SubscribeMessage(sub, NOW)];
  }

  lemma SubscribeFields(s: Subscriber, at: Moment)
    ensures var m := SubscribeMessage(s, at);
      m.performative == Subscribe && m.sender == Named(s.name) && m.conversationId == ConvId(s, at)
  {
  }

  lemma AgreedTo()
    ensures var s := Next(Next(Start("pub", map["sub" := ("", "")]), Listen("sub", NOW)), Serve(Answer(true, "")));
      && s.subs == map["sub" := Subscriber("sub", "pub", "", "", WaitingAgree, false, "snp-sub-1")]
      && s.pub == Publisher("pub", map["sub" := "snp-sub-1"]) && s.handled == map["sub" := []] && Queue(s.bus, "pub") == []
      && |Queue(s.bus, "sub")| == 1
      && var m := Queue(s.bus, "sub")[0]; m.performative == Agree && m.conversationId == "snp-sub-1"
  {
    Subscribed();
    hide Start;
    var s := Next(Start("pub", map["sub" := ("", "")]), Listen("sub", NOW));
    hide Next;
    ServeOne(s, Answer(true, ""), Queue(s.bus, "pub")[0]);
  }

  lemma ServeOne(s: System, answer: Answer, m: Message)
    requires Queue(s.bus, s.pub.name) == [m] && m.sender.name != s.pub.name
    ensures var s', es := Next(s, Serve(answer)), PublisherSends(s.pub, Some(m), answer);
      && s'.subs == s.subs && s'.handled == s.handled && s'.pub == PublisherNext(s.pub, Some(m), answer)
      && Queue(s'.bus, s.pub.name) == []
      && Queue(s'.bus, m.sender.name) == Queue(s.bus, m.sender.name) + SentMessages(es)
  {
    ServeQueues(s, answer, m);
  }

  lemma ListenOne(s: System, who: string, at: Moment)
    requires SubOk(s, who) && who != s.pub.name && !s.subs[who].done
    ensures var s', got := Next(s, Listen(who, at)), Seen(s.subs[who], s.bus, at);
      && s'.pub == s.pub && s'.subs == s.subs[who := SubscriberNext(s.subs[who], got, at)]
      && s'.handled == (if NoteOf(s.subs[who], got).HandleNotify?
           then s.handled[who := s.handled[who] + [NoteOf(s.subs[who], got).msg]] else s.handled)
      && Queue(s'.bus, s.pub.name) == Queue(s.bus, s.pub.name) + SentMessages(SubscriberSends(s.subs[who], at))
      && Queue(s'.bus, who) == (if Polls(s.subs[who], at) && Queue(s.bus, who) != [] then Queue(s.bus, who)[1..] else Queue(s.bus, who))
  {
    hide SubscriberNext, NoteOf, SubscriberSends, Seen;
    ListenQueues(s, who, at);
  }

  lemma AgreeRead()
    ensures var s := Reading();
      && s.subs == map["sub" := Subscriber("sub", "pub", "", "", WaitingNotify, false, "snp-sub-1")]
      && s.pub == Publisher("pub", map["sub" := "snp-sub-1"]) && s.handled == map["sub" := []]
      && Queue(s.bus, "pub") == [] && Queue(s.bus, "sub") == []
  {
    AgreedTo();
    hide Start, Next;
    ListenOne(Next(Next(Start("pub", map["sub" := ("", "")]), Listen("sub", NOW)), Serve(Answer(true, ""))), "sub", NOW);
  }

  lemma NotifyTheOne(s: System, who: string, content: string)
    requires s.pub.subscribers.Keys == {who} && who != s.pub.name && Queue(s.bus, who) == []
    ensures var s' := Next(s, Notify(content, ""));
      && s'.subs == s.subs && s'.pub == s.pub && s'.handled == s.handled
      && Queue(s'.bus, s.pub.name) == Queue(s.bus, s.pub.name)
      && Queue(s'.bus, who) == [Notice(s.pub.name, s.pub.subscribers[who], content, "")]
  {
    hide Notice;
  }

  lemma WithNotice()
    ensures var s := FirstNotified();
      && s.subs == map["sub" := Subscriber("sub", "pub", "", "", WaitingNotify, false, "snp-sub-1")]
      && s.pub == Publisher("pub", map["sub" := "snp-sub-1"]) && s.handled == map["sub" := []] && Queue(s.bus, "pub") == []
      && Queue(s.bus, "sub") == [Notice("pub", "snp-sub-1", "x", "")]
  {
    AgreeRead();
    hide Start, Next, Notice;
    NotifyTheOne(Reading(), "sub", "x");
  }

  lemma WithCancel()
    ensures var s := Next(FirstNotified(), Listen("sub", LEAVE));
      && s.subs == map["sub" := Subscriber("sub", "pub", "", "", WaitingCancelAck, false, "snp-sub-1")]
      && s.pub == Publisher("pub", map["sub" := "snp-sub-1"]) && s.handled == map["sub" := []]
      && Queue(s.bus, "pub") == [CancelMessage(Subscriber("sub", "pub", "", "", WaitingNotify, false, "snp-sub-1"))]
      && Queue(s.bus, "sub") == [Notice("pub", "snp-sub-1", "x", "")]
  {
    hide FirstNotified, Next, Notice, CancelMessage;
    WithNotice();
    ListenOne(FirstNotified(), "sub", LEAVE);
  }

  lemma WithFarewell()
    ensures var s := Next(Next(FirstNotified(), Listen("sub", LEAVE)), Serve(Answer(true, "bye")));
      && s.subs == map["sub" := Subscriber("sub", "pub", "", "", WaitingCancelAck, false, "snp-sub-1")]
      && s.pub.name == "pub" && s.handled == map["sub" := []]
      && Queue(s.bus, "sub") == [Notice("pub", "snp-sub-1", "x", ""), Notice("pub", "snp-sub-1", "bye", "")]
  {
    hide FirstNotified, Next, Notice, CancelMessage;
    WithCancel();
    var sub := Subscriber("sub", "pub", "", "", WaitingNotify, false, "snp-sub-1");
    CancelFields(sub);
    ServeOne(Next(FirstNotified(), Listen("sub", LEAVE)), Answer(true, "bye"), CancelMessage(sub));
  }

  /** The notice is taken for the acknowledgement: it is handled, the subscriber ends, and
      the farewell is still queued. */
  lemma FarewellUnread()
    ensures var w := Farewelled();
      && "sub" in w.subs && w.subs["sub"].done && "sub" in w.handled
      && w.handled["sub"] == [Notice("pub", "snp-sub-1", "x", "")]
      && Queue(w.bus, "sub") == [Notice("pub", "snp-sub-1", "bye", "")]
  {
    hide FirstNotified, Next, Notice;
    WithFarewell();
    NoticeFields("pub", "snp-sub-1", "x");
    ListenOne(Next(Next(FirstNotified(), Listen("sub", LEAVE)), Serve(Answer(true, "bye"))), "sub", NOW);
  }

  /** Then the CANCEL is sent, the subscriber acts, and only now is the CANCEL served. */
  function TooEarly(): System {
    Next(Next(Next(Reading(), Listen("sub", LEAVE)), Listen("sub", NOW)), Serve(Answer(true, "bye")))
  }

  /** Nothing was queued and nothing was announced, but the wait for the acknowledgement
      ran out before the CANCEL was served: nothing is handled, the subscriber has ended,
      and the farewell is queued. */
  lemma FarewellTooLate()
    ensures var w := TooEarly();
      && Queue(Reading().bus, "sub") == []
      && "sub" in w.subs && w.subs["sub"].done && "sub" in w.handled && w.handled["sub"] == []
      && Queue(w.bus, "sub") == [Notice("pub", "snp-sub-1", "bye", "")]
  {
    hide Start, Next, Notice, CancelMessage;
    AgreeRead();
    var sub := Subscriber("sub", "pub", "", "", WaitingNotify, false, "snp-sub-1");
    CancelFields(sub);
    ListenOne(Reading(), "sub", LEAVE);
    var c := Next(Reading(), Listen("sub", LEAVE));
    assert Queue(c.bus, "pub") == [CancelMessage(sub)];
    ListenOne(c, "sub", NOW);
    ServeOne(Next(c, Listen("sub", NOW)), Answer(true, "bye"), CancelMessage(sub));
  }

  lemma CancelFields(s: Subscriber)
    ensures var m := CancelMessage(s);
      m.performative == Cancel && m.sender.name == s.name && m.conversationId == s.convId
  {
  }

  lemma NoticeFields(from: string, conv: string, content: string)
    ensures Notice(from, conv, content, "").conversationId == conv && Notice(from, conv, content, "").performative == Inform
  {
  }
}
