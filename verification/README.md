# Verified model of gAgent

This project models the parts of the gAgent multi-agent library whose correctness is
hardest to see, and proves what they promise:

- **The FIPA ACL text codec** (`AclMessages`, `AclLexer`, `AclTokens`, `AclGrammar`,
  `AclCodec`, `AclRoundTrip`, `AclMeaning`): the printer, the longest-match scanner, the
  grammar with its semantic actions, what a text means, and the round trip.
- **The three interaction protocols over a FIFO bus** (`MessageBus`, `Counting`,
  `ContractNet*`, `SubscribeNotify`, `SubscribeRoles`, `SubscribeDelivery`,
  `SubscribeWords`, `SubscribeFarewell`, `Request*`): each role is a class whose `Action`
  is proved against a step function. The `*Roles` modules say what such a role does on its
  own, whatever arrives in its queue; the others run systems of any number of agents in any
  interleaving.
- **The text transport** (`Transport`, `SpokenMessages`, `TextShadows`, `*OverText`):
  running any of the three protocols over printed and parsed messages is running it over
  the in-memory bus.
- **The behaviour scheduler** (`Behaviours`, `BehaviourVisits`, `BehaviourTicks`, `FsmRuns`,
  `Scheduler`): nested sequential, parallel and state-machine behaviours under one
  thread.
- **The suspend gate** (`SuspendGate`), **the snapshot stack** (`Nsap`), **the line
  protocol of the platform** (`TextStreams`, `AmsProtocol`) and **the attribute and
  migration formats** (`Migration`).

## How the model is built

- Each class has a function (`State`, `Value`, or the fields themselves) that gives its
  abstract state, and each method ties the new state, the new queues and its result to a
  specification function of the old ones. The theorems are about those functions, over
  all runs.
- Callbacks (`selectProposals`, `prepareProposal`, `executeTask`, `handleRequest`,
  `prepareAgree`, `handleSubscribe`, `handleCancel`, `shouldCancel`), the clock and the
  process table are parameters of a step: arbitrary, except for what the header comments
  ask of a callback (`MayReturn`). Printing to the console and logging are not modelled.
- A deadline is the answer `expired` of the clock, possible at any moment. A receive
  that returns nothing is a poll of an empty queue.
- One `action()` is one step. The exception is the Request participant, whose action is
  cut between the AGREE and the answer, because `handleRequest` may block there.
- Agents have distinct names: the participants of a Contract Net differ from each other
  and from the initiator, clients and subscribers from their server.
- A message is a value, as it is copied wherever it is sent. The bytes of a text are
  characters.
- A child of a composite behaviour belongs to its parent alone, which deletes it, so a
  class keeps its children by value. `life`, `cut`, `trail`, `exits`, `visits` and `wakes`
  are history that the program does not hold: who was called when, how many visits were cut
  off by a new `onStart()`, which states were entered, which exit values were read, how
  often a waker was visited and has woken.
- `Time` of a user's behaviour is how many actions a visit needs before `done()` is true,
  any number or none at all, and it may differ from visit to visit.

## Where the code and its documentation differ

The model follows the code:

- `include/gagent/core/Behaviour.hpp:202` says that a state's `onEnd()` may fix its
  `exitValue()`. The machine reads the exit value before it calls `onEnd()`
  (`src/core/Behaviour.cpp:368-369`), so what `onEnd()` sets is not used,
  and the machine goes elsewhere unless the tables treat both values alike
  (`FsmRuns.ExitTimingMatters`; an example is `FsmRuns.OnEndComesTooLate`).
- `src/env/Environnement.cpp:121-124` says that `push_nsap` returns the size of the
  stack. It returns the number of pushes since the last clear, which is the size exactly
  while nothing has been pulled (`Nsap.PushReturnsSize`; an example is
  `Nsap.PushAfterPull`).
- A slave address is printed as `-` when there is none, and `-` is read as none, so the
  address `-` is the one that does not survive a LIST (`AmsProtocol.ListRoundTrip`;
  an example is `AmsProtocol.DashIsLost`).
- The acknowledgement that a subscriber waits for after its CANCEL is any message of its
  conversation: if notifications are still queued it is the oldest of them, and the
  farewell stays in the queue. No message at all ends the wait as well, so a farewell
  that comes later is not read either. What is handled is still a prefix of what was
  announced (`SubscribeDelivery.DeliveryInOrder`); the last action hands the farewell
  over exactly if nothing was queued at the CANCEL, nothing was announced until the
  CANCEL was served, and the wait did not run out before that
  (`SubscribeFarewell.FarewellExact`; examples are `SubscribeFarewell.FarewellUnread`
  and `SubscribeFarewell.FarewellTooLate`).
- A reply to a message that does not name its sender prints a receiver without a name,
  which cannot be read back (`Transport.ReplyPrintable`; an example is
  `Transport.NamelessReply`).

## Model

| member | source | states |
|---|---|---|
| `AclMessages.StringOfPerformative` | src/messaging/ACLMessage.cpp:104-158 | the two performative tables are inverse to each other on all performatives |
| `AclMessages.PerformativeOfString` | src/messaging/ACLMessage.cpp:131-158 | a name in the table stands for the performative that is printed so, any other for none |
| `AclMessages.RepliesTakeTurns` | src/messaging/ACLMessage.cpp:87-100 | two agents that go on replying take turns: sender, receiver, conversation, language, ontology and protocol of the reply and of the reply to it, and what each refers to |
| `AclMessages.EscapeString` | src/messaging/ACLMessage.cpp:21-37 | the escaping loop produces the quoted, escaped text that the round-trip lemmas are about |
| `AclMessages.AgentIdToString` | src/messaging/ACLMessage.cpp:39-51 | the identifier text, with the address list only if there are addresses |
| `AclMessages.ToString` | src/messaging/ACLMessage.cpp:53-83 | the printer, field by field in its order, empty fields left out; its result is the text Print(m) that PrintThenParse reads back |
| `AclLexer.KeywordTextIsPrinted` | src/messaging/fipa_acl.l:44-64 | each performative keyword rule is the very text the printer writes |
| `AclLexer.ScanIsFlex` | src/messaging/fipa_acl.l:23-99 | the scanner takes rule r with length n if and only if flex does: no rule matches a longer prefix, and none written earlier matches the same one; the rules are given as languages, independently of the scanner |
| `AclLexer.CloseComplete` | src/messaging/fipa_acl.l:70-70 | the closing quote is found at the end of every text of complete string items |
| `AclTokens.UnescapeString` | src/messaging/fipa_acl.l:71-87 | the index loop of the string action computes the unescaped value |
| `AclTokens.UnescapeEscape` | src/messaging/ACLMessage.cpp:21-37 | unescaping undoes escaping, for every string, and the escaped text consists of complete string items |
| `AclTokens.UnescapeReads` | src/messaging/fipa_acl.l:71-87 | for every string of items and every s: the string action gives s if and only if the items are a way of writing s, unknown escapes included |
| `AclTokens.QuotedIsOneToken` | src/messaging/fipa_acl.l:70-89 | for every string and every following text, longest match takes the quoted text as one string lexeme, stops exactly behind its closing quote and gives back the string |
| `AclTokens.Tokenize` | src/messaging/fipa_acl.l:23-101 | the scanner loop yields the whole token sequence, or nothing on an unexpected character |
| `AclTokens.LexIsFlex` | src/messaging/fipa_acl.l:23-101 | the token stream, exactly: the text is cut into lexemes as flex cuts it, blanks and newlines return nothing, a character that only the last rule matches makes it fail |
| `AclTokens.LexIsClean` | src/messaging/fipa_acl.l:91-107 | every word token is a word and no keyword, and no token of a C string holds a NUL |
| `AclTokens.UpToNul` | src/messaging/fipa_acl.l:105-107 | what the scanner sees of a C string: all before the first NUL |
| `AclTokens.EmitsWord` | src/messaging/fipa_acl.l:91-93 | a word that is no keyword is one word token wherever a delimiter follows |
| `AclGrammar.ParserIsGrammar` | src/messaging/fipa_acl.y:98-210 | the parser returns tree t for a token sequence if and only if t is a derivation tree of the grammar that derives exactly that sequence: it accepts just the language, and the grammar is unambiguous |
| `AclGrammar.FindsExpr` | src/messaging/fipa_acl.y:201-210 | in any context the parser finds the derivation tree of an expression, to any depth of nesting |
| `AclMeaning.MeaningIsWhatIsSaid` | src/messaging/fipa_acl.y:131-210 | the meaning of every derivation tree, read off the tree as a whole: the receivers are the names under all receiver parameters, sets included, in order; the sender, the protocol and each field are what their last parameter gives; addresses, resolvers and reply-by dates leave no trace |
| `AclMeaning.TextMeans` | src/messaging/fipa_acl.y:98-210 | a text is read as the message m if and only if it has a derivation tree that says m, for every text and every m |
| `AclMeaning.SetIsItsMembers` | src/messaging/fipa_acl.y:139-166 | a receiver set means what its members mean one by one, in its place, among any other parameters |
| `AclMeaning.ListIsSpaced` | src/messaging/fipa_acl.y:201-210 | a parenthesised expression is the values of its parts with one blank between them; empty parts are skipped in front and only there |
| `AclMeaning.AddressesAreWritten` | src/messaging/ACLMessage.cpp:39-51 | the text of a printable message has a tree that names its sender and its receivers, in order, each with all its addresses, in order, although the actions then drop them |
| `AclCodec.FipaAclDriver.Parse` | src/messaging/FipaAclDriver.cpp:9-19 | a call starts from a blank message and returns what the text means, or nothing if it does not parse; what a text means is AclMeaning.TextMeans |
| `AclCodec.FipaAclDriver.ParseParameters` | src/messaging/fipa_acl.y:131-159 | the parameter actions are applied to the result one by one as they are read |
| `AclCodec.EmitsMessage` | src/messaging/ACLMessage.cpp:53-83 | the printed text of a printable message is scanned into exactly the tokens of its derivation tree |
| `AclRoundTrip.PrintThenParse` | src/messaging/ACLMessage.cpp:53-83 | parse(toString(m)) is m with the addresses erased, for every printable m: any NUL-free content, names and protocol that are words, other fields empty, a word, or a single-spaced parenthesised word list to any depth |
| `AclRoundTrip.RoundTrip` | src/messaging/ACLMessage.cpp:11-17 | for messages whose unquoted fields are empty, a word or a word list and whose addresses are words, the round trip holds if and only if the performative is known, the names and the protocol are words and no keywords, and the content has no NUL |
| `AclRoundTrip.ParsedIsNameable` | src/messaging/fipa_acl.y:103-210 | whatever text is accepted, the message read has word names, a NUL-free content and no addresses; its other fields are words or word lists if the text quotes none of them |
| `AclRoundTrip.PrintRetracts` | src/messaging/fipa_acl.y:131-210 | printing a message that was read from any accepted text and reading it again changes nothing, receiver sets, repeated and reordered parameters, quoted words and nested contents included, provided the fields that are printed without quotes are empty, a word or a word list |
| `AclRoundTrip.QuotesAreLost` | src/messaging/ACLMessage.cpp:66-79 | where it fails: a language written as a quoted pair of words is read, but it is printed without its quotes, and that text is refused |
| `AclRoundTrip.TreeMeansMessage` | src/messaging/fipa_acl.y:103-178 | the semantic actions on the derivation tree of a printed message build that message without its addresses |
| `MessageBus.MockBus.Deliver` | include/gagent/messaging/MockTransport.hpp:40-43 | appends to the queue of the receiver and changes no other queue |
| `MessageBus.MockBus.Poll` | include/gagent/messaging/MockTransport.hpp:45-52 | takes the front of a queue, nothing if it is empty or unknown |
| `MessageBus.MockBus.Clear` | include/gagent/messaging/MockTransport.hpp:54-57 | forgets one queue |
| `MessageBus.MockBus.Pending` | include/gagent/messaging/MockTransport.hpp:60-65 | the length of a queue, 0 if there is none |
| `MessageBus.FifoExact` | include/gagent/messaging/MockTransport.hpp:38-70 | for any interleaving of sends and receives, what was received under a name followed by what is still queued is what was there and what was sent to it, in order, each once |
| `Transport.TextTransport.AclSend` | include/gagent/messaging/AclMQ.hpp:278-283 | queues the text of the message |
| `Transport.TextTransport.AclReceive` | include/gagent/messaging/AclMQ.hpp:300-353 | returns the message that the next text parses to, and nothing when there is none or it cannot be read |
| `Transport.ReceiveMeans` | include/gagent/messaging/AclMQ.hpp:300-353 | a receive over text returns m if and only if a text is queued that has a derivation tree saying m; a text without one is taken all the same and nothing is returned |
| `Transport.TextIsMock` | include/gagent/messaging/AclMQ.hpp:278-353 | every system of agents, schedule and callbacks takes over text queues the very calls, with the very results (addresses erased), that it takes over the mock bus, as long as it sends printable messages |
| `Transport.ReplyPrintable` | src/messaging/ACLMessage.cpp:87-100 | a reply to a printable message is printable if and only if that message names its sender |
| `Transport.NamelessReply` | src/messaging/ACLMessage.cpp:87-100 | the reply to a message without a sender is not what its text is read back as |
| `SpokenMessages.CfpReady` | include/gagent/protocols/ContractNet.hpp:134-145 | the CFP that is sent is printable: the made-up conversation identifier is a word and no keyword |
| `SpokenMessages.VerdictsReady` | include/gagent/protocols/ContractNet.hpp:197-209 | so are the verdicts |
| `SpokenMessages.AnswerReady` | include/gagent/protocols/ContractNet.hpp:336-366 | so are proposals, refusals and results, whatever printable message the callback returns |
| `SpokenMessages.SubscribeReady` | include/gagent/protocols/SubscribeNotify.hpp:125-137 | so is a SUBSCRIBE |
| `SpokenMessages.NoticeReady` | include/gagent/protocols/SubscribeNotify.hpp:268-296 | so is a notification |
| `SpokenMessages.RequestReady` | include/gagent/protocols/Request.hpp:114-123 | so is a REQUEST |
| `SpokenMessages.RequestConv` | include/gagent/protocols/Request.hpp:103-103 | the conversation identifier of a client is a word and no keyword |
| `SpokenMessages.CompletedReady` | include/gagent/protocols/Request.hpp:261-274 | so is a completed response |
| `ContractNetOverText.ErasedNext` | include/gagent/protocols/ContractNet.hpp:130-256 | the initiator looks at no address: erasing addresses before an action is erasing them after it |
| `ContractNetOverText.TextRunIsMockRun` | include/gagent/messaging/AclMQ.hpp:278-353 | for every printable CFP, number of participants, schedule, clock and callbacks, the Contract Net over text queues, started with that very CFP, goes through exactly the states it goes through over the mock bus and gives its callbacks the same messages, addresses aside; every queued text reads back as its message, so an unreadable text never passes for a timeout |
| `RequestOverText.TextRunIsMockRun` | include/gagent/messaging/AclMQ.hpp:278-353 | so for the Request protocol with any number of clients: the same states, the same messages given to every callback of the clients and of the participant, the same messages sent, addresses aside |
| `SubscribeOverText.TextRunIsMockRun` | include/gagent/messaging/AclMQ.hpp:278-353 | so for the Subscribe protocol with any number of subscribers: the same states, the same decisions of the publisher, the same messages given to handleNotify, addresses aside |
| `TextShadows.SameFront` | include/gagent/messaging/AclMQ.hpp:341-351 | a receive over text returns the message that a receive over the mock bus returns, without addresses |
| `ContractNet.ContractNetInitiator.Action` | include/gagent/protocols/ContractNet.hpp:130-256 | one action() of the initiator, all five states, as a function of its state, its queue, the clock and selectProposals: new state, new queues, callback |
| `ContractNet.ContractNetInitiator.SendCfps` | include/gagent/protocols/ContractNet.hpp:134-152 | the loop sends the CFP to every participant in order |
| `ContractNet.ContractNetInitiator.Decide` | include/gagent/protocols/ContractNet.hpp:192-220 | the loop answers every proposal once, ACCEPT exactly for the selected names, and records the winners |
| `ContractNet.ContractNetParticipant.Action` | include/gagent/protocols/ContractNet.hpp:326-374 | one action() of a participant, both states, with what prepareProposal or executeTask returns |
| `ContractNetRoles.CallbacksExact` | include/gagent/protocols/ContractNet.hpp:155-250 | whatever the initiator is sent, by whomever: PROPOSE messages of its conversation are recorded, handleRefuse gets the REFUSE and NOT_UNDERSTOOD ones, handleInform the INFORMs and handleFailure the FAILUREs, each in its phase and in order, and no other message reaches a callback; it waits until all have answered or the deadline has passed, and likewise for results |
| `ContractNetRoles.SendsExact` | include/gagent/protocols/ContractNet.hpp:132-220 | what it sends: the CFP with the user's content and all other fields to every participant in order, then one verdict a proposal, to its sender and referring to it, ACCEPT exactly for the selected; who was accepted is who was sent an ACCEPT; nothing else |
| `ContractNetRoles.DeadlineEnds` | include/gagent/protocols/ContractNet.hpp:155-254 | once the deadlines have passed, five actions end the initiator from any state, whatever arrives |
| `ContractNetRoles.ParticipantExact` | include/gagent/protocols/ContractNet.hpp:326-374 | whatever a participant is sent, by whomever: prepareProposal gets the first CFP, executeTask the first verdict of its conversation if it is an ACCEPT, nothing else any; what they return goes, with all its fields, to the sender of the CFP, in its conversation and referring to the message answered; it ends exactly on an empty receive, a refusal of its own, or its verdict |
| `ContractNetSystem.PlayKeepsSound` | include/gagent/protocols/ContractNet.hpp:130-374 | the invariant that links all local counters to the messages in transit holds in every state of every run: any number of participants, any interleaving, timeouts at any moment |
| `ContractNetSystem.LocalParticipant` | include/gagent/protocols/ContractNet.hpp:326-374 | a participant moves its conversation from one of the twelve possible stages to another |
| `ContractNetSystem.LocalTakes` | include/gagent/protocols/ContractNet.hpp:167-187 | so does the initiator taking a message |
| `ContractNetLaws.CfpConservation` | include/gagent/protocols/ContractNet.hpp:134-190 | n = CFPs queued + answers queued + responded + answers dropped late, in every state after the CFPs went out |
| `ContractNetLaws.ResultConservation` | include/gagent/protocols/ContractNet.hpp:192-250 | results pending = ACCEPTs queued + results queued, and accepted = pending + results handled |
| `ContractNetLaws.FinishedMeansHandled` | include/gagent/protocols/ContractNet.hpp:211-254 | finished with nothing pending, every accepted participant has executed once and its result was handled once |
| `ContractNetLaws.Conservation` | include/gagent/protocols/ContractNet.hpp:134-250 | the three laws above in every state of every run |
| `ContractNetLaws.AwardSafety` | include/gagent/protocols/ContractNet.hpp:175-209 | in every run a task is executed at most once and only for a recorded proposal that selectProposals named; a recorded proposal gets exactly one verdict, ACCEPT exactly if it was named; one that was not recorded, a late one among them, gets neither and is never executed |
| `ContractNetLaws.TrafficBound` | include/gagent/protocols/ContractNet.hpp:130-374 | no run sends more than 4n messages |
| `ContractNetAnswers.RunTied` | include/gagent/protocols/ContractNet.hpp:130-374 | in every state of every run both roles have done what they do on their own, and what one has taken from the other and what is still queued is, in order, what the other has sent |
| `ContractNetAnswers.QuestionsArrive` | include/gagent/protocols/ContractNet.hpp:326-374 | in every run prepareProposal is given the user's CFP, and executeTask an ACCEPT that refers to the participant's own proposal |
| `ContractNetAnswers.OffersArrive` | include/gagent/protocols/ContractNet.hpp:175-192 | in every run what selectProposals and handleRefuse get from a participant is what prepareProposal returned there, and refers to the CFP |
| `ContractNetAnswers.OutcomeArrives` | include/gagent/protocols/ContractNet.hpp:232-254 | finished with nothing pending, for every accepted participant: executeTask was called once, and what it returned reached handleInform if it was an INFORM and handleFailure if it was a FAILURE, once and unchanged, and the other callback had nothing from it |
| `ContractNetProgress.StepLowersRank` | include/gagent/protocols/ContractNet.hpp:130-374 | every step of every run changes nothing or lowers a measure |
| `ContractNetProgress.Termination` | include/gagent/protocols/ContractNet.hpp:130-374 | in any run at most 5(n+1) moves change anything, timeouts included |
| `ContractNetProgress.Progress` | include/gagent/protocols/ContractNet.hpp:130-374 | the same in any state of the invariant in which no participant has ended with its mail unread or its proposal standing, until the initiator has ended |
| `ContractNetProgress.ProgressWithoutTimeouts` | include/gagent/protocols/ContractNet.hpp:132-255 | after any run without timeouts in which the initiator has not ended, there is an agent each of whose steps, whatever the clock shows before the deadline and whatever its callbacks answer, lowers the measure |
| `ContractNetProgress.EveryFairRunEnds` | include/gagent/protocols/ContractNet.hpp:130-374 | for arbitrary callback functions of all agents: after any run without timeouts, 5(n+1) rounds in which every agent has a turn, in any order, bring the initiator to its end |
| `SubscribeNotify.SubscribeInitiator.Action` | include/gagent/protocols/SubscribeNotify.hpp:121-210 | one action() of a subscriber, all four states |
| `SubscribeNotify.SubscribeParticipant.Action` | include/gagent/protocols/SubscribeNotify.hpp:303-339 | one action() of the publisher: AGREE and entry, REFUSE, or farewell and removal |
| `SubscribeNotify.SubscribeParticipant.Notify` | include/gagent/protocols/SubscribeNotify.hpp:268-280 | every subscriber in the map gets exactly one INFORM under its own conversation, nobody else gets anything, whatever the order of the loop |
| `SubscribeNotify.SubscribeParticipant.NotifyOne` | include/gagent/protocols/SubscribeNotify.hpp:283-296 | one subscriber gets one INFORM; an unknown name gets none |
| `SubscribeRoles.SubscriberExact` | include/gagent/protocols/SubscribeNotify.hpp:121-210 | whatever a subscriber is sent, by whomever: which messages reach handleRefuse and handleNotify, when it is subscribed, the SUBSCRIBE and the CANCEL it sends field by field, and exactly when it ends |
| `SubscribeRoles.PublisherExact` | include/gagent/protocols/SubscribeNotify.hpp:303-339 | whatever a publisher is sent, by whomever: who is subscribed under which conversation is what the last accepted SUBSCRIBE or the last CANCEL of each agent says; it sends one verdict for each SUBSCRIBE and one farewell, with the text of handleCancel, for each CANCEL that gets one, in order |
| `SubscribeRoles.NotifyExact` | include/gagent/protocols/SubscribeNotify.hpp:268-296 | each subscriber meant gets one message with the content and the ontology under its own conversation; no other queue changes |
| `SubscribeDelivery.PlayKeepsInv` | include/gagent/protocols/SubscribeNotify.hpp:121-339 | the invariant over the seven stages of every conversation holds in every state of every run |
| `SubscribeDelivery.DeliveryInOrder` | include/gagent/protocols/SubscribeNotify.hpp:145-208 | for every subscriber in every run, what handleNotify was given is a prefix, in order and each once, of what was announced while it was subscribed plus the farewell; in WAIT_NOTIFY handled and queued together are all of it; in WAIT_AGREE the AGREE and all of it are still queued |
| `SubscribeWords.WordsArrive` | include/gagent/protocols/SubscribeNotify.hpp:145-339 | in every run, for every subscriber: what handleNotify was given says, message by message, the contents and ontologies that were announced while it was subscribed and the farewell text, in the publisher's name; and what is queued says the rest |
| `SubscribeDelivery.MembershipExact` | include/gagent/protocols/SubscribeNotify.hpp:312-338 | the publisher's map is exactly the membership that its own decisions imply, and a subscriber waiting for notifications is in it under its conversation |
| `SubscribeDelivery.SubscribersCounted` | include/gagent/protocols/SubscribeNotify.hpp:299-299 | what subscriberCount returns: in every state of every run, the number of agents whose SUBSCRIBE was accepted and whose CANCEL has not been served since |
| `SubscribeFarewell.FarewellExact` | include/gagent/protocols/SubscribeNotify.hpp:180-208 | in every state of every run in which a subscriber cancels and the publisher answers with a farewell, everything has been handled, the farewell included, if and only if nothing was queued at the CANCEL, nothing was announced to it until the CANCEL was served, and its last action came after the serving and not before; otherwise the farewell is the last message in its queue |
| `SubscribeFarewell.FarewellAtLastAction` | include/gagent/protocols/SubscribeNotify.hpp:202-208 | an action that follows the serving hands the farewell over if and only if the farewell is all that is queued |
| `SubscribeFarewell.FarewellUnread` | include/gagent/protocols/SubscribeNotify.hpp:202-208 | a run in which one notice is queued at the CANCEL: the notice is handled, the subscriber is done, the farewell is still queued |
| `SubscribeFarewell.FarewellTooLate` | include/gagent/protocols/SubscribeNotify.hpp:202-208 | a run in which nothing was queued and nothing announced, but the wait for the acknowledgement ran out before the CANCEL was served: the subscriber is done, has handled nothing, and the farewell is queued |
| `RequestProtocol.RequestInitiator.Action` | include/gagent/protocols/Request.hpp:112-172 | one action() of a client, both states and all callbacks |
| `RequestProtocol.RequestParticipant.Receive` | include/gagent/protocols/Request.hpp:242-259 | the first half of an action: a request is taken, anything else dropped, AGREE sent if wanted |
| `RequestProtocol.RequestParticipant.Respond` | include/gagent/protocols/Request.hpp:261-274 | the second half: missing receiver, sender and conversation are filled in and the response is sent |
| `RequestProtocol.RequestParticipant.Action` | include/gagent/protocols/Request.hpp:241-275 | the whole action |
| `RequestRoles.ClientExact` | include/gagent/protocols/Request.hpp:112-172 | whatever a client is sent, by whomever: it sends its one request; every message of its conversation goes to the callback of its performative, in order, and no other to any; it ends with the first ending or the first empty receive and takes nothing more |
| `RequestRoles.ParticipantExact` | include/gagent/protocols/Request.hpp:241-275 | one action on any queues: a REQUEST is answered to its sender, AGREE first if wanted, then the response with every field that its handler set, and missing receiver, sender and conversation filled in; any other message is dropped; no other queue changes |
| `RequestTraces.ClientTrace` | include/gagent/protocols/Request.hpp:128-172 | for every number of clients and every interleaving, also between AGREE and answer: a client sees at most one agreement, first, and at most one ending, last; it is done exactly after the ending; what its callbacks were given and what is queued is all that was sent to it, in order |
| `RequestTraces.OneFinalReply` | include/gagent/protocols/Request.hpp:241-275 | a request is taken up at most once; one that is finished with has had exactly one final answer, behind its AGREE if any; one being worked on at most the AGREE; one not taken up nothing |
| `RequestWords.WordsExchanged` | include/gagent/protocols/Request.hpp:112-275 | in every run: every request taken up says what its client was made for; the i-th final answer goes to who asked the i-th request and says what handleRequest returned for it; every AGREE refers to a request taken up |
| `RequestWords.ResponseArrives` | include/gagent/protocols/Request.hpp:128-172 | in every run, a client that has ended otherwise than by a timeout had as its last callback the one for the performative of what handleRequest returned for its own request, and was given that |
| `Behaviours.LifeCycleIsClosed` | src/core/Behaviour.cpp:235-397 | whoever drives the root of any tree of behaviours by the contract onStart (action done)+ onEnd, for as long as it likes, every composite in it drives its children by that contract or a prefix of it: no action, done or onEnd after a true done; and every waker has called onWake exactly once in each visit that has come to its end, and in no other; a prefix only where VisitsAreWhole does not apply |
| `BehaviourVisits.VisitsAreWhole` | src/core/Behaviour.cpp:235-397 | in every tree outside the parallels that wait for any: onStart reaches a child only at rest, so no visit is cut off, and whenever the root is done or at rest, every visit that was started of every child has been ended |
| `BehaviourVisits.AnyCutsOff` | src/core/Behaviour.cpp:265-305 | a parallel that waits for any, one of whose children is still in its visit when the other has ended, and is started again from there |
| `Behaviours.ActionKeepsSane` | src/core/Behaviour.cpp:241-393 | an action of any composite keeps the contract of all its children |
| `Behaviours.StartKeepsSane` | src/core/Behaviour.cpp:235-353 | so does starting it, also after it was abandoned in the middle |
| `Behaviours.TurnAll` | src/core/Behaviour.cpp:282-289 | the children of a parallel behaviour after one action: each child that has not ended has had one turn, the others are untouched |
| `BehaviourTicks.SomeTime` | src/core/Agent.cpp:131-139 | every started behaviour has a time: the number of rounds until done() is true, or for ever |
| `BehaviourTicks.OneShotActsOnce` | src/core/Behaviour.cpp:98-126 | a one-shot behaviour, whose done() is true from the start, acts exactly once, a cyclic one for ever |
| `BehaviourTicks.SequentialTakes` | src/core/Behaviour.cpp:235-257 | whatever its children are, state machines included, a sequence takes the sum of their times, at least 1 |
| `BehaviourTicks.ParallelTakes` | src/core/Behaviour.cpp:271-305 | whatever its children are, a parallel takes the greatest of their times, or the least if it waits for any, at least 1 |
| `BehaviourTicks.TickCount` | src/core/Behaviour.cpp:140-305 | exthread calls action() exactly cost(tree) times, for ever if that is infinite: at least 1, the sum over a sequence, the maximum over a parallel that waits for all, the minimum over one that waits for any, the timer of a waker |
| `BehaviourTicks.ExThreadKeepsContract` | src/core/Agent.cpp:125-141 | exthread drives every tree by the contract, state machines included |
| `BehaviourTicks.ThreadKeepsContract` | src/core/Agent.cpp:125-141 | what exthread leaves behind, onEnd included: no contract is broken, and a waker run alone has called onWake once if it has ended and not before |
| `Scheduler.ExThread` | src/core/Agent.cpp:125-141 | the loop of the behaviour thread, watched for any number of rounds: it acts until done() is first true and then calls onEnd(); for a tree of sequences and parallels that is after exactly cost(tree) actions |
| `Scheduler.WakerBehaviour.Act` | src/core/Behaviour.cpp:140-152 | the timer counts down and never below zero |
| `Scheduler.WakerBehaviour.AskDone` | src/core/Behaviour.cpp:140-160 | a true answer calls onWake; that this is once in every visit that ends is LifeCycleIsClosed |
| `Scheduler.SequentialBehaviour.Begin` | src/core/Behaviour.cpp:235-239 | starts the first child |
| `Scheduler.SequentialBehaviour.Act` | src/core/Behaviour.cpp:241-253 | one turn of the current child, and the start of the next one when it ends |
| `Scheduler.SequentialBehaviour.AskDone` | src/core/Behaviour.cpp:255-257 | done when all children are |
| `Scheduler.ParallelBehaviour.Begin` | src/core/Behaviour.cpp:271-274 | starts every child and clears the flags |
| `Scheduler.ParallelBehaviour.Act` | src/core/Behaviour.cpp:276-290 | the loop gives one turn to each child that has not ended and flags those that end |
| `Scheduler.ParallelBehaviour.Answer` | src/core/Behaviour.cpp:292-305 | done with any or with all children ended, at once without children |
| `Scheduler.FSMBehaviour.RegisterTransition` | src/core/Behaviour.cpp:337-341 | changes where this state goes on this exit value and nothing else |
| `Scheduler.FSMBehaviour.Begin` | src/core/Behaviour.cpp:348-353 | enters the first state if it is registered |
| `Scheduler.FSMBehaviour.Act` | src/core/Behaviour.cpp:355-393 | one turn of the current state, and the transition when its visit ends |
| `Scheduler.FSMBehaviour.NextState` | src/core/Behaviour.cpp:373-385 | the specific transition if there is one with a name, else the default |
| `FsmRuns.TargetMoves` | src/core/Behaviour.cpp:373-389 | the lookup takes a step of the automaton, or there is none |
| `FsmRuns.MovesOneWay` | src/core/Behaviour.cpp:373-389 | the automaton is deterministic |
| `FsmRuns.FsmRefinesAutomaton` | src/core/Behaviour.cpp:348-393 | however long a machine is driven, the states entered are a run of the automaton on the exit values read, the current state is registered, and it has finished exactly when it ended a last state or one without a registered successor |
| `FsmRuns.NoStateToEnter` | src/core/Behaviour.cpp:348-364 | a machine whose first state is not registered ends with its first action, one without a first state never; neither starts any state |
| `FsmRuns.ExitTimingMatters` | src/core/Behaviour.cpp:366-393 | whenever a visit of a registered state that is not last ends: the machine goes where the exit value left by onEnd would send it if and only if the transition and default tables lead both exit values to the same registered state, or both to none |
| `FsmRuns.OnEndComesTooLate` | src/core/Behaviour.cpp:366-393 | a machine that enters B although the exit value set by onEnd leads to C |
| `FsmRuns.FsmTickCount` | src/core/Behaviour.cpp:355-393 | with a rank that every transition lowers, the machine ends after exactly the summed times of the states on the path of its automaton, having visited exactly those, whatever behaviours its states are |
| `FsmRuns.FsmTakes` | src/core/Behaviour.cpp:348-397 | the same as a time, so that machines nest in sequences, parallels and machines |
| `SuspendGate.GateHolds` | src/core/Agent.cpp:131-138 | for any number of threads and any interleaving: since runingThred went down (clearing it again changes nothing) each thread has begun at most one action, and only if it was already past the gate; once it is set and the notification is out no thread sleeps at the gate |
| `SuspendGate.AtMostOneAction` | src/core/Agent.cpp:131-138 | over any stretch of any run in which the flag stays down, however often it is cleared again, a thread begins at most one action, and none unless it was past the gate when the stretch began |
| `SuspendGate.NextKeepsInv` | src/core/Agent.cpp:186-309 | every lock, test, wait, spurious wake-up, action and control step keeps the gate invariant |
| `SuspendGate.ShutGateStops` | src/core/Agent.cpp:196-204 | while the gate is shut a thread in front of it stays there |
| `SuspendGate.OpenGateLetsThrough` | src/core/Agent.cpp:301-309 | once it is open a waiting thread can pass and act |
| `SuspendGate.FlagIsLastWritten` | src/core/Agent.cpp:186-309 | in every state of every run runingThred is what was last written to it, and true before that |
| `SuspendGate.ControlTakesEffect` | src/core/Agent.cpp:186-309 | whenever the mutex is free the control thread can set the flag either way, leaves the mutex free, wakes every sleeper and touches no thread past the gate |
| `SuspendGate.WaitingIsSleeping` | src/core/Agent.cpp:131-138 | while the flag stays down and nobody wakes it, a thread looks at the flag at most once, and not at all once it sleeps |
| `SuspendGate.SpuriousWakeIsHarmless` | src/core/Agent.cpp:131-138 | a thread that wakes by itself while the gate is shut looks and sleeps again, and everything is as it was |
| `SuspendGate.OverWhenDone` | src/core/Agent.cpp:125-141 | a thread is over exactly when one of its actions has ended with done() true; it has ended every action it began except the one it is in |
| `Nsap.Environnement.PushNsap` | src/env/Environnement.cpp:125-135 | pushes the current state of all agents onto the stack that the two maps represent |
| `Nsap.Environnement.PullNsap` | src/env/Environnement.cpp:141-158 | pops the newest state into the current one, returns the size left, -1 on the empty stack |
| `Nsap.Environnement.ClearNsap` | src/env/Environnement.cpp:163-170 | empties the stack, keeps the current state, resets the counter |
| `Nsap.Environnement.UpdateAttributes` | src/env/Environnement.cpp:80-88 | an update changes one agent and not the stack |
| `Nsap.SavedLast` | src/env/Environnement.cpp:149-153 | removing the greatest key from the maps is removing the newest element of the stack |
| `Nsap.BalancedRestores` | src/env/Environnement.cpp:125-158 | any stretch of pushes and pulls that match, whatever updates happen in between, restores the attributes of all agents and the stack |
| `Nsap.LatestAttributes` | src/env/Environnement.cpp:80-170 | after any pushes, pulls, clears and updates: in the current state and in each saved one, every agent has the attributes of its last update before that state was pushed, and no other |
| `Nsap.PushCountsPushes` | src/env/Environnement.cpp:125-135 | push returns the number of pushes since the last clear |
| `Nsap.PushReturnsSize` | src/env/Environnement.cpp:121-135 | what push returns is the size of the stack, as its comment says, if and only if nothing has been pulled since the last clear |
| `Nsap.PullCountsLeft` | src/env/Environnement.cpp:141-158 | pull returns how many saved states are left, -1 exactly when there was none |
| `Nsap.PushAfterPull` | src/env/Environnement.cpp:125-135 | a push, a pull and a push: the stack holds one state and push returns 2 |
| `TextStreams.ValueOfDigits` | platform/ams/AMS.cpp:60-60 | the decimal digits of a number have its value |
| `TextStreams.GetIntBack` | src/platform/AMSClient.cpp:168-168 | any int that was printed is read back, and the stream is left right behind it |
| `TextStreams.AnyNumber` | src/platform/AMSClient.cpp:155-168 | a printed number of any size: an int is read, anything else gives the nearest int and a failed read, and makes stoi throw |
| `TextStreams.NoNumber` | src/platform/AMSClient.cpp:155-168 | what is no number gives 0, nothing at all leaves the value, both fail, and stoi throws |
| `TextStreams.GetWordBack` | src/platform/AMSClient.cpp:168-168 | so is any word |
| `AmsProtocol.Socket.Peek` | platform/common/socket_utils.hpp:24-25 | a peek shows some of the bytes to come, as many as happen to have arrived |
| `AmsProtocol.ReadlineFd` | platform/common/socket_utils.hpp:18-41 | however the stream is cut into pieces, the line is exactly the bytes before the first newline and the stream is left just behind it |
| `AmsProtocol.RecordBack` | src/platform/AMSClient.cpp:131-137 | a record printed and read is the record, except that the slave "-" becomes none |
| `AmsProtocol.ListRoundTrip` | src/platform/AMSClient.cpp:147-174 | the client rebuilds exactly the records printed, for word fields and any int pid, if and only if no slave is called "-" |
| `AmsProtocol.DashIsLost` | src/platform/AMSClient.cpp:147-174 | a record whose slave is "-" comes back without one |
| `AmsProtocol.AnnouncedCount` | src/platform/AMSClient.cpp:147-174 | a LIST reply that announces any other number: as many records as announced, nameless ones for the missing, none for a negative number, an exception if it does not fit an int |
| `AmsProtocol.RefusedReplies` | src/platform/AMSClient.cpp:147-174 | a reply without OK lists and finds nothing; OK without a number throws |
| `AmsProtocol.LookupRoundTrip` | platform/ams/AMS.cpp:47-65 | so for LOOKUP, an unknown agent included |
| `AmsProtocol.RegisterBack` | platform/ams/AMS.cpp:31-40 | a REGISTER line gives the record it was made from, the slave being the peer if none is given |
| `AmsProtocol.RegisterByWords` | platform/ams/AMS.cpp:31-40 | any REGISTER line by its words, whatever is missing or out of range: name, process, address, slave and the defaults of each |
| `AmsProtocol.RegisteredIsListed` | platform/ams/AMS.cpp:31-96 | from one client's REGISTER line through the registry to another client's list, whatever else is registered and whatever processes have died: a new agent is listed just as registered if and only if its host is not called "-" and it is not a dead agent of this host; under a taken name only the earlier agent can be listed; every other living agent is listed |
| `AmsProtocol.ClientList` | src/platform/AMSClient.cpp:147-174 | the counted loop of list() reads the reply as specified, exceptions included |
| `AmsProtocol.Ams.HandleRegister` | platform/ams/AMS.cpp:31-40 | a record is made from the line and entered unless its name is taken |
| `AmsProtocol.Ams.HandleList` | platform/ams/AMS.cpp:72-96 | dead local agents are forgotten; the reply prints every other record exactly once |
| `AmsProtocol.Ams.HandleLookup` | platform/ams/AMS.cpp:47-65 | a dead local agent is forgotten and not found |
| `AmsProtocol.Ams.RegisterAgent` | platform/ams/AMS.cpp:246-260 | a name can be registered once |
| `AmsProtocol.Ams.RegisterEndpoint` | platform/ams/AMS.cpp:262-268 | an endpoint is overwritten |
| `AmsProtocol.Ams.DeregisterAgent` | platform/ams/AMS.cpp:270-278 | only the named entry goes |
| `AmsProtocol.Ams.SetState` | platform/ams/AMS.cpp:302-309 | only the state of the named entry changes |
| `Migration.Agent.AddAttribut` | src/core/Agent.cpp:564-566 | an attribute that exists keeps its value |
| `Migration.Agent.SetAttribut` | src/core/Agent.cpp:572-579 | only an attribute that exists is set |
| `Migration.Agent.Serialise` | src/core/Agent.cpp:531-538 | the attributes as text, each once |
| `Migration.Agent.Depart` | src/core/Agent.cpp:209-253 | the ARRIVE line: "-" for no attributes, the agent identifier for an empty name; nothing is sent for an agent of no type |
| `Migration.ParseKeyValSeq` | src/env/Environnement.cpp:20-31 | the loop reads the assignments between semicolons into a cleared map, and says whether there were any |
| `Migration.UpdateRoundTrip` | src/env/Environnement.cpp:20-31 | the update text gives the attributes back if and only if no key has a colon or semicolon and no value a semicolon |
| `Migration.LastAssignmentWins` | src/env/Environnement.cpp:20-31 | whatever the text, an attribute gets the value of the last piece that assigns to it and keeps its own if there is none |
| `Migration.HandleMigration` | src/core/AgentFactory.cpp:58-97 | the server answers a bad line and an unknown type as such, and otherwise makes the agent with the attributes of the line |
| `Migration.ArrivalExact` | src/core/AgentFactory.cpp:58-97 | any line by its words: bad format, unknown type, or an agent with the attributes it is born with and those of the fourth word over them |
| `Migration.RestoreOne` | src/core/AgentFactory.cpp:89-96 | one piece of the attribute text: an assignment if it has a colon |
| `Migration.MigrationRoundTrip` | src/core/AgentFactory.cpp:58-97 | an agent arrives with its type, name and exactly its attributes, none included, if and only if no key has a colon, semicolon or blank and no value a semicolon or blank |
| `Migration.MigrationArrives` | src/core/AgentFactory.cpp:58-97 | an agent with portable attributes that travels to any server arrives with them over those its type is born with, or is answered that its type is unknown |
| `AclMessages.AddSender` | src/messaging/ACLMessage.cpp:58-59 | the sender line, only if the sender has a name |
| `AclMessages.AddReceivers` | src/messaging/ACLMessage.cpp:61-62 | one receiver line a receiver, in order |
| `AclMessages.AddContent` | src/messaging/ACLMessage.cpp:64-65 | the content line, escaped, only if there is content |
| `AclMessages.AddPlainLines` | src/messaging/ACLMessage.cpp:66-79 | the unquoted fields, in order, each only if it is not empty |
| `ContractNet.ContractNetInitiator.constructor` | include/gagent/protocols/ContractNet.hpp:96-108 | starts before sending, with nothing recorded |
| `ContractNet.ContractNetInitiator.ReceiveAnswer` | include/gagent/protocols/ContractNet.hpp:164-185 | takes one message: a proposal is recorded, a refusal handled, both counted; anything else is dropped |
| `ContractNet.ContractNetInitiator.ReceiveResult` | include/gagent/protocols/ContractNet.hpp:232-245 | takes one message: a result is handled and counted off; anything else is dropped |
| `SubscribeNotify.SubscribeInitiator.SendSubscribe` | include/gagent/protocols/SubscribeNotify.hpp:125-143 | one SUBSCRIBE under a new conversation |
| `SubscribeNotify.SubscribeInitiator.ReceiveAgree` | include/gagent/protocols/SubscribeNotify.hpp:156-176 | an AGREE opens the subscription, a refusal ends it, anything else is dropped |
| `Scheduler.ParallelBehaviour.AskDone` | src/core/Behaviour.cpp:292-305 | asking changes nothing but the contract monitor |
| `Scheduler.FSMBehaviour.RegisterFirstState` | src/core/Behaviour.cpp:321-325 | registers the state and makes it the first |
| `Scheduler.FSMBehaviour.RegisterState` | src/core/Behaviour.cpp:327-330 | registers a state |
| `Scheduler.FSMBehaviour.RegisterLastState` | src/core/Behaviour.cpp:332-335 | registers a last state |
| `Scheduler.FSMBehaviour.RegisterDefaultTransition` | src/core/Behaviour.cpp:343-346 | replaces the default transition of one state |
| `Scheduler.FSMBehaviour.AskDone` | src/core/Behaviour.cpp:395-395 | done exactly when finished |
| `Nsap.Environnement.Greatest` | src/env/Environnement.cpp:148-150 | the entry with the greatest key |
| `AmsProtocol.Socket.Read` | platform/common/socket_utils.hpp:31-31 | consumes bytes that were peeked |
| `AmsProtocol.FindNewline` | platform/common/socket_utils.hpp:27-27 | the first newline of the buffer, or none |
| `AmsProtocol.Ams.PurgeDead` | platform/ams/AMS.cpp:74-87 | exactly the dead local agents are removed |
| `AmsProtocol.Ams.PrintAll` | platform/ams/AMS.cpp:89-95 | one line a record, every record once |
| `AmsProtocol.ReadInfos` | src/platform/AMSClient.cpp:163-171 | the counted loop reads as many records as announced |
| `Migration.Agent.RemoveAttribut` | src/core/Agent.cpp:568-570 | only the named attribute goes |
| `Migration.Restore` | src/core/AgentFactory.cpp:86-97 | all pieces of the attribute text are put into the attributes, later ones over earlier ones |

## Left out

- Sockets, processes, signals, ZeroMQ, POSIX queues and their size limits, UDP, HTTP,
  the command line and logging are input and output; a connection neither fails nor
  times out in the middle of a line.
- Wall-clock time: deadlines and timeouts happen at any moment instead.
- The uniqueness of conversation identifiers, which the code makes from the clock modulo
  100000; every model runs one conversation a queue name, as the code demands, so two
  protocols under one name and their lost messages are not modelled.
- Machine integers: the counters of the protocols are bounded by the number of
  participants, and the snapshot counter and the waker's timer are not let overflow.
- Calls of notify from other threads while the publisher acts.
- AclMessages.ToString: addresses do not survive the round trip, because the grammar
  drops them; of the fields other than the content that need quotes, which the
  printer does not quote, only `AclRoundTrip.QuotesAreLost` speaks.
- FsmRuns.FsmTickCount: needs a rank that the transitions lower; a machine that can come
  back to a state may run for ever, and is covered by FsmRuns.FsmRefinesAutomaton.
- Adding or removing children of a composite while it runs.
- SuspendGate.GateHolds: is about the gate only; that every control command is carried
  out is not claimed, since the one-slot command box of the control thread can be
  overwritten.
- AmsProtocol.Ams.HandleList: the order in which the records are printed is left open;
  the slave registry with its watchdog, the DF and the other commands are filtering and
  map updates of the same kind.
- Migration.Agent.Serialise: the order of the attributes is left open.
- Migration.Agent.Depart: that a move without a type or without a connection sets the
  agent's threads going again is not modelled; the target's address and port are the
  network's.
- The timestamps of the snapshots are kept but not interpreted.
- PythonBehaviour and its JSON exchange, and the graphical side of the environment.
