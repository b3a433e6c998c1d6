/** Optional values, for the source's std::optional. */
module Options {
  datatype Option<+T> = None | Some(value: T)
}

/** FIPA ACL messages as the library holds them (ACLMessage.hpp, AgentIdentifier.hpp),
    the two performative tables, replies, and the text printer of ACLMessage.cpp.
    A message is copied wherever it goes, so it is a value here. */
module AclMessages {

  datatype Performative =
    | AcceptProposal | Agree | Cancel | Cfp | Confirm | Disconfirm | Failure
    | Inform | InformIf | InformRef | NotUnderstood | Propagate | Propose
    | Proxy | QueryRef | Refuse | RejectProposal | Request | RequestWhen
    | RequestWhenever | Subscribe | Unknown

  datatype AgentIdentifier = AgentIdentifier(name: string, addresses: seq<string>)

  function Named(name: string): AgentIdentifier {
    AgentIdentifier(name, [])
  }

  datatype Message = Message(
    performative: Performative,
    sender: AgentIdentifier,
    receivers: seq<AgentIdentifier>,
    content: string,
    language: string,
    encoding: string,
    ontology: string,
    protocol: string,
    conversationId: string,
    replyWith: string,
    inReplyTo: string)

  const BLANK := Message(Unknown, Named(""), [], "", "", "", "", "", "", "", "")

  /** A freshly constructed message of the given performative. */
  function Fresh(p: Performative): Message {
    BLANK.(performative := p)
  }

  function PerformativeToString(p: Performative): string {
    match p
    case AcceptProposal => "accept-proposal"
    case Agree => "agree"
    case Cancel => "cancel"
    case Cfp => "cfp"
    case Confirm => "confirm"
    case Disconfirm => "disconfirm"
    case Failure => "failure"
    case Inform => "inform"
    case InformIf => "inform-if"
    case InformRef => "inform-ref"
    case NotUnderstood => "not-understood"
    case Propagate => "propagate"
    case Propose => "propose"
    case Proxy => "proxy"
    case QueryRef => "query-ref"
    case Refuse => "refuse"
    case RejectProposal => "reject-proposal"
    case Request => "request"
    case RequestWhen => "request-when"
    case RequestWhenever => "request-whenever"
    case Subscribe => "subscribe"
    case Unknown => "unknown"
  }

  function StringToPerformative(s: string): Performative {
    if s == "accept-proposal" then AcceptProposal
    else if s == "agree" then Agree
    else if s == "cancel" then Cancel
    else if s == "cfp" then Cfp
    else if s == "confirm" then Confirm
    else if s == "disconfirm" then Disconfirm
    else if s == "failure" then Failure
    else if s == "inform" then Inform
    else if s == "inform-if" then InformIf
    else if s == "inform-ref" then InformRef
    else if s == "not-understood" then NotUnderstood
    else if s == "propagate" then Propagate
    else if s == "propose" then Propose
    else if s == "proxy" then Proxy
    else if s == "query-ref" then QueryRef
    else if s == "refuse" then Refuse
    else if s == "reject-proposal" then RejectProposal
    else if s == "request" then Request
    else if s == "request-when" then RequestWhen
    else if s == "request-whenever" then RequestWhenever
    else if s == "subscribe" then Subscribe
    else Unknown
  }

  /** Printing a performative and reading it back through the table gives it again. */
  lemma StringOfPerformative(p: Performative)
    ensures StringToPerformative(PerformativeToString(p)) == p
  {
    hide StringToPerformative, PerformativeToString;
    if AcceptToInformIf(p) {
      EarlyString(p);
    } else if InformRefToRefuse(p) {
      MiddleString(p);
    } else {
      LateString(p);
    }
  }

  /** A name that is in the table is that of the performative it stands for; any other
      stands for none. */
  lemma PerformativeOfString(s: string)
    ensures StringToPerformative(s) != Unknown ==> PerformativeToString(StringToPerformative(s)) == s
    ensures (forall p :: p != Unknown ==> PerformativeToString(p) != s) ==> StringToPerformative(s) == Unknown
  {
    hide StringToPerformative, PerformativeToString;
    var p := StringToPerformative(s);
    if AcceptToInformIf(p) {
      EarlyName(s);
    } else if InformRefToRefuse(p) {
      MiddleName(s);
    } else if p != Unknown {
      LateName(s);
    }
  }

  lemma EarlyName(s: string)
    requires AcceptToInformIf(StringToPerformative(s))
    ensures PerformativeToString(StringToPerformative(s)) == s
  {
  }

  lemma MiddleName(s: string)
    requires InformRefToRefuse(StringToPerformative(s))
    ensures PerformativeToString(StringToPerformative(s)) == s
  {
  }

  lemma LateName(s: string)
    requires var p := StringToPerformative(s); !AcceptToInformIf(p) && !InformRefToRefuse(p) && p != Unknown
    ensures PerformativeToString(StringToPerformative(s)) == s
  {
  }

  predicate AcceptToInformIf(p: Performative) {
    p.AcceptProposal? || p.Agree? || p.Cancel? || p.Cfp? || p.Confirm?
    || p.Disconfirm? || p.Failure? || p.Inform? || p.InformIf?
  }

  predicate InformRefToRefuse(p: Performative) {
    p.InformRef? || p.NotUnderstood? || p.Propagate? || p.Propose? || p.Proxy?
    || p.QueryRef? || p.Refuse?
  }

  lemma EarlyString(p: Performative)
    requires AcceptToInformIf(p)
    ensures StringToPerformative(PerformativeToString(p)) == p
  {
    match p {
      case AcceptProposal =>
      case Agree =>
      case Cancel =>
      case Cfp =>
      case Confirm =>
      case Disconfirm =>
      case Failure =>
      case Inform =>
      case InformIf =>
      case _ =>
    }
  }

  lemma MiddleString(p: Performative)
    requires InformRefToRefuse(p)
    ensures StringToPerformative(PerformativeToString(p)) == p
  {
    match p {
      case InformRef =>
      case NotUnderstood =>
      case Propagate =>
      case Propose =>
      case Proxy =>
      case QueryRef =>
      case Refuse =>
      case _ =>
    }
  }

  lemma LateString(p: Performative)
    requires !AcceptToInformIf(p) && !InformRefToRefuse(p)
    ensures StringToPerformative(PerformativeToString(p)) == p
  {
    hide StringToPerformative, PerformativeToString;
    if p.RejectProposal? || p.Subscribe? || p.Unknown? {
      LastString(p);
    } else {
      RequestString(p);
    }
  }

  lemma LastString(p: Performative)
    requires p.RejectProposal? || p.Subscribe? || p.Unknown?
    ensures StringToPerformative(PerformativeToString(p)) == p
  {
    match p {
      case RejectProposal =>
      case Subscribe =>
      case _ =>
    }
  }

  lemma RequestString(p: Performative)
    requires p.Request? || p.RequestWhen? || p.RequestWhenever?
    ensures StringToPerformative(PerformativeToString(p)) == p
  {
    match p {
      case Request =>
      case RequestWhen =>
      case _ =>
    }
  }

  /** The reply skeleton of createReply: the first receiver becomes the sender. */
  function CreateReply(m: Message, p: Performative): Message {
    var reply := Fresh(p).(
      sender := if m.receivers == [] then Named("") else m.receivers[0],
      receivers := [m.sender],
      language := m.language,
      ontology := m.ontology,
      protocol := m.protocol,
      conversationId := m.conversationId);
    if m.replyWith != "" then reply.(inReplyTo := m.replyWith) else reply
  }

  /** Two agents that go on replying take turns: the reply to a reply is from who sent the
      message, to the first of those it was sent to, in the same conversation, language,
      ontology and protocol; and it refers to the reply only if that asked for it. */
  lemma RepliesTakeTurns(m: Message, p: Performative, q: Performative, tag: string)
    requires m.receivers != []
    ensures var reply := CreateReply(m, p).(replyWith := tag);
      var back := CreateReply(reply, q);
      && reply.performative == p && reply.sender == m.receivers[0] && reply.receivers == [m.sender]
      && reply.inReplyTo == m.replyWith && reply.content == reply.encoding == ""
      && back.performative == q && back.sender == m.sender && back.receivers == [m.receivers[0]] && back.inReplyTo == tag
      && back.conversationId == m.conversationId && back.language == m.language
      && back.ontology == m.ontology && back.protocol == m.protocol
  {
  }

  /** The message with every agent reduced to its name. */
  function EraseAddresses(m: Message): Message {
    m.(sender := Named(m.sender.name), receivers := Names(m.receivers))
  }

  function Names(ids: seq<AgentIdentifier>): (r: seq<AgentIdentifier>)
    ensures |r| == |ids|
    ensures forall i :: 0 <= i < |ids| ==> r[i] == Named(ids[i].name)
  {
    if ids == [] then [] else [Named(ids[0].name)] + Names(ids[1..])
  }

  // ----- the printer -----

  function EscapeChar(c: char): string {
    match c
    case '\"' => "\\\""
    case '\\' => "\\\\"
    case '\n' => "\\n"
    case '\t' => "\\t"
    case _ => [c]
  }

  function EscapeBody(s: string): string {
    if s == "" then "" else EscapeChar(s[0]) + EscapeBody(s[1..])
  }

  function Quote(s: string): string {
    "\"" + EscapeBody(s) + "\""
  }

  lemma EscapeBodyAppend(s: string, c: char)
    ensures EscapeBody(s + [c]) == EscapeBody(s) + EscapeChar(c)
  {
    if s == "" {
      assert s + [c] == [c];
    } else {
      assert (s + [c])[1..] == s[1..] + [c];
      EscapeBodyAppend(s[1..], c);
    }
  }

  method EscapeString(s: string) returns (out: string)
    ensures out == Quote(s)
  {
    out := "\"";
    for i := 0 to |s|
      invariant out == "\"" + EscapeBody(s[..i])
    {
      assert s[..i + 1] == s[..i] + [s[i]];
      EscapeBodyAppend(s[..i], s[i]);
      match s[i] {
        case '\"' => out := out + "\\\"";
        case '\\' => out := out + "\\\\";
        case '\n' => out := out + "\\n";
        case '\t' => out := out + "\\t";
        case _ => out := out + [s[i]];
      }
    }
    assert s[..|s|] == s;
    out := out + "\"";
  }

  /** Every address preceded by one blank. */
  function AddressText(addresses: seq<string>): string {
    if addresses == [] then "" else AddressText(addresses[..|addresses| - 1]) + " " + addresses[|addresses| - 1]
  }

  function AgentIdText(aid: AgentIdentifier): string {
    "(agent-identifier :name " + aid.name
    + (if aid.addresses == [] then "" else " :addresses (sequence" + AddressText(aid.addresses) + ")")
    + ")"
  }

  method AgentIdToString(aid: AgentIdentifier) returns (os: string)
    ensures os == AgentIdText(aid)
  {
    os := "(agent-identifier :name " + aid.name;
    if aid.addresses != [] {
      os := os + " :addresses (sequence";
      ghost var before := os;
      for i := 0 to |aid.addresses|
        invariant os == before + AddressText(aid.addresses[..i])
      {
        assert aid.addresses[..i + 1][..i] == aid.addresses[..i];
        os := os + " " + aid.addresses[i];
      }
      assert aid.addresses[..|aid.addresses|] == aid.addresses;
      os := os + ")";
    }
    os := os + ")";
  }

  /** One line of the message, or nothing for an empty value. */
  function Line(prefix: string, value: string): string {
    if value == "" then "" else prefix + value + "\n"
  }

  /** Appends one such line to the text so far. */
  method AddLine(os: string, prefix: string, value: string) returns (out: string)
    ensures out == os + Line(prefix, value)
  {
    out := os;
    if value != "" {
      out := out + prefix + value + "\n";
    }
  }

  function SenderLine(sender: AgentIdentifier): string {
    if sender.name == "" then "" else Line(" :sender ", AgentIdText(sender))
  }

  function ReceiverLines(ids: seq<AgentIdentifier>): string {
    if ids == [] then ""
    else ReceiverLines(ids[..|ids| - 1]) + Line(" :receiver ", AgentIdText(ids[|ids| - 1]))
  }

  function ContentLine(content: string): string {
    if content == "" then "" else Line(" :content ", Quote(content))
  }

  /** The seven plain parameter lines, in the order toString writes them. */
  function PlainLines(m: Message): string {
    Line(" :language ", m.language)
    + Line(" :encoding ", m.encoding)
    + Line(" :ontology ", m.ontology)
    + Line(" :protocol ", m.protocol)
    + Line(" :conversation-id ", m.conversationId)
    + Line(" :reply-with ", m.replyWith)
    + Line(" :in-reply-to ", m.inReplyTo)
  }

  /** The text toString gives. */
  function Print(m: Message): string {
    "(" + PerformativeToString(m.performative) + "\n"
    + (SenderLine(m.sender) + (ReceiverLines(m.receivers) + (ContentLine(m.content) + (PlainLines(m) + ")"))))
  }

  lemma ReceiverLinesStep(os: string, ids: seq<AgentIdentifier>, i: nat)
    requires i < |ids|
    ensures os + ReceiverLines(ids[..i + 1])
         == os + ReceiverLines(ids[..i]) + Line(" :receiver ", AgentIdText(ids[i]))
  {
    assert ids[..i + 1][..i] == ids[..i];
    var line := Line(" :receiver ", AgentIdText(ids[i]));
    assert os + (ReceiverLines(ids[..i]) + line) == os + ReceiverLines(ids[..i]) + line;
  }

  method AddReceivers(os: string, ids: seq<AgentIdentifier>) returns (out: string)
    ensures out == os + ReceiverLines(ids)
  {
    out := os;
    for i := 0 to |ids|
      invariant out == os + ReceiverLines(ids[..i])
    {
      var id := AgentIdToString(ids[i]);
      out := AddLine(out, " :receiver ", id);
      ReceiverLinesStep(os, ids, i);
    }
    assert ids[..|ids|] == ids;
  }

  method AddPlainLines(os: string, m: Message) returns (out: string)
    ensures out == os + PlainLines(m)
  {
    var lines := AddLine("", " :language ", m.language);
    lines := AddLine(lines, " :encoding ", m.encoding);
    lines := AddLine(lines, " :ontology ", m.ontology);
    lines := AddLine(lines, " :protocol ", m.protocol);
    lines := AddLine(lines, " :conversation-id ", m.conversationId);
    lines := AddLine(lines, " :reply-with ", m.replyWith);
    lines := AddLine(lines, " :in-reply-to ", m.inReplyTo);
    assert "" + Line(" :language ", m.language) == Line(" :language ", m.language);
    out := os + lines;
  }

  method AddSender(os: string, sender: AgentIdentifier) returns (out: string)
    ensures out == os + SenderLine(sender)
  {
    out := os;
    if sender.name != "" {
      var id := AgentIdToString(sender);
      out := AddLine(out, " :sender ", id);
    }
  }

  method AddContent(os: string, content: string) returns (out: string)
    ensures out == os + ContentLine(content)
  {
    out := os;
    if content != "" {
      var quoted := EscapeString(content);
      out := AddLine(out, " :content ", quoted);
    }
  }

  method ToString(m: Message) returns (os: string)
    ensures os == Print(m)
  {
    var head := "(" + PerformativeToString(m.performative) + "\n";
    os := AddSender(head, m.sender);
    os := AddReceivers(os, m.receivers);
    os := AddContent(os, m.content);
    os := AddPlainLines(os, m);
    os := os + ")";
    Regroup(head, SenderLine(m.sender), ReceiverLines(m.receivers), ContentLine(m.content), PlainLines(m));
  }

  lemma Regroup(a: string, b: string, c: string, d: string, e: string)
    ensures a + b + c + d + e + ")" == a + (b + (c + (d + (e + ")"))))
  {
    assert a + b + c + d + e + ")" == a + b + c + d + (e + ")");
    assert a + b + c + d + (e + ")") == a + b + c + (d + (e + ")"));
    assert a + b + c + (d + (e + ")")) == a + b + (c + (d + (e + ")")));
  }
}
