/** The line protocol between the agent platform and its clients: framing of lines on a
    stream that arrives in pieces, the registry, and the LIST, LOOKUP and REGISTER
    exchanges. */
module AmsProtocol {
  import opened Options
  import opened TextStreams

  // ----- lines on a socket -----

  const BUFFER: nat := 4096

  /** The receiving end of a connection whose sender has written its text and closed. */
  class Socket {
    var rest: string

    constructor (text: string)
      ensures rest == text
    {
      rest := text;
    }

    /** recv with MSG_PEEK: some of what is to come, as much as has arrived and fits. */
    method Peek() returns (buf: string)
      ensures |buf| <= BUFFER && |buf| <= |rest| && buf == rest[..|buf|]
      ensures buf == "" <==> rest == ""
    {
      if rest == "" {
        return "";
      }
      assert 1 <= 1 <= |rest|;
      var n :| 1 <= n <= |rest| && n <= BUFFER;
      return rest[..n];
    }

    /** read of bytes that were peeked. */
    method Read(n: nat) returns (buf: string)
      requires n <= |rest|
      modifies this
      ensures buf == old(rest)[..n] && rest == old(rest)[n..]
    {
      buf := rest[..n];
      rest := rest[n..];
    }
  }

  /** memchr: the position of the first newline, the length if there is none. */
  method FindNewline(buf: string) returns (k: nat)
    ensures k <= |buf| && '\n' !in buf[..k]
    ensures k < |buf| ==> buf[k] == '\n'
  {
    k := 0;
    while k < |buf| && buf[k] != '\n'
      invariant k <= |buf| && '\n' !in buf[..k]
    {
      assert buf[..k + 1] == buf[..k] + [buf[k]];
      k := k + 1;
    }
  }

  /** readline_fd: however the text is cut into pieces, the line is what comes before the
      first newline, and the stream is left just behind it. */
  method ReadlineFd(s: Socket) returns (line: string)
    modifies s
    ensures '\n' !in line
    ensures old(s.rest) == (if '\n' in old(s.rest) then line + "\n" + s.rest else line)
    ensures '\n' !in old(s.rest) ==> s.rest == ""
    ensures line == Piece(old(s.rest), '\n') && s.rest == After(old(s.rest), '\n')
  {
    line := "";
    ghost var text := s.rest;
    while true
      invariant text == line + s.rest && '\n' !in line
      decreases |s.rest|
    {
      var buf := s.Peek();
      if buf == "" {
        assert text == line;
        break;
      }
      var nl := FindNewline(buf);
      var piece := s.Read(if nl < |buf| then nl + 1 else |buf|);
      if nl < |buf| {
        assert piece == buf[..nl] + "\n";
        line := line + piece[..|piece| - 1];
        assert text == line + "\n" + s.rest;
        PieceBack(line, '\n', s.rest);
        break;
      }
      assert piece == buf[..nl];
      line := line + piece;
    }
    assert '\n' !in text ==> Piece(text, '\n') == text;
  }

  // ----- records -----

  datatype Record = Record(name: string, address: string, pid: int, state: string, slaveIp: string)

  /** A record as LIST and LOOKUP print it, without what is before and after it. */
  function RecordText(r: Record): string {
    r.name + (" " + ToString(r.pid) + (" " + r.address + (" " + r.state + (" " + (if r.slaveIp == "" then "-" else r.slaveIp)))))
  }

  /** A line as the client reads it. */
  function ParseRecord(line: string): Record {
    var (name, i1) := GetWord(Input(line, true));
    var (pid, i2) := GetInt(i1, -1);
    var (address, i3) := GetWord(i2);
    var (state, i4) := GetWord(i3);
    var (slave, _) := GetWord(i4);
    Record(name, address, pid, state, if slave != "-" then slave else "")
  }

  /** Records that can be sent: the fields are words, the slave may be missing. */
  predicate Sendable(r: Record) {
    IsWord(r.name) && IsWord(r.address) && IsWord(r.state) && IsInt(r.pid) && (r.slaveIp == "" || IsWord(r.slaveIp))
  }

  lemma DashIsWord()
    ensures IsWord("-")
  {
  }

  lemma Space(rest: string)
    ensures EndsHere(" " + rest) && EndsHere("")
  {
  }

  /** A record read back is the record sent, except that a slave called "-" is lost. */
  lemma RecordBack(r: Record)
    requires Sendable(r)
    ensures ParseRecord(RecordText(r)) == Arrived(r)
  {
    hide GetWord, GetInt, ToString, IsWord, EndsHere;
    DashIsWord();
    var slave := if r.slaveIp == "" then "-" else r.slaveIp;
    var t4 := " " + slave;
    var t3 := " " + r.state + t4;
    var t2 := " " + r.address + t3;
    var t1 := " " + ToString(r.pid) + t2;
    Space(slave);
    Space(r.state + t4);
    Space(r.address + t3);
    Space(ToString(r.pid) + t2);
    assert t3 == " " + (r.state + t4) && t2 == " " + (r.address + t3) && t1 == " " + (ToString(r.pid) + t2);
    assert t4 == " " + slave + "";
    GetWordBack(r.name, t1);
    GetIntBack(r.pid, t2, -1);
    GetWordBack(r.address, t3);
    GetWordBack(r.state, t4);
    GetWordBack(slave, "");
  }

  predicate NoNewline(t: string) {
    '\n' !in t
  }

  lemma WordHasNoNewline(w: string)
    requires IsWord(w)
    ensures NoNewline(w)
  {
  }

  lemma NoNewlineConcat(a: string, b: string)
    requires NoNewline(a) && NoNewline(b)
    ensures NoNewline(a + b)
  {
  }

  lemma RecordIsOneLine(r: Record)
    requires Sendable(r)
    ensures NoNewline(RecordText(r))
  {
    hide ToString, NoNewline, IsWord;
    NumberIsWord(r.pid);
    WordHasNoNewline(r.name);
    WordHasNoNewline(r.address);
    WordHasNoNewline(r.state);
    WordHasNoNewline(ToString(r.pid));
    var slave := if r.slaveIp == "" then "-" else r.slaveIp;
    DashIsWord();
    WordHasNoNewline(slave);
    SpaceHasNoNewline();
    NoNewlineConcat(" ", slave);
    NoNewlineConcat(" " + r.state, " " + slave);
    NoNewlineConcat(" ", r.state);
    NoNewlineConcat(" " + r.address, " " + r.state + (" " + slave));
    NoNewlineConcat(" ", r.address);
    NoNewlineConcat(" " + ToString(r.pid), " " + r.address + (" " + r.state + (" " + slave)));
    NoNewlineConcat(" ", ToString(r.pid));
    NoNewlineConcat(r.name, " " + ToString(r.pid) + (" " + r.address + (" " + r.state + (" " + slave))));
  }

  lemma SpaceHasNoNewline()
    ensures NoNewline(" ")
  {
  }

  // ----- LIST -----

  function RecordLines(rs: seq<Record>): string {
    if rs == [] then "" else RecordText(rs[0]) + "\n" + RecordLines(rs[1..])
  }

  function ListText(rs: seq<Record>): string {
    "OK " + ToString(|rs|) + "\n" + RecordLines(rs)
  }

  /** The client's reading of count lines. */
  function ReadRecords(text: string, count: nat): seq<Record>
    decreases count
  {
    if count == 0 then [] else [ParseRecord(Piece(text, '\n'))] + ReadRecords(After(text, '\n'), count - 1)
  }

  /** The client's reading of a reply to LIST: None is an exception out of substr or stoi. */
  function ReadList(text: string): Option<seq<Record>> {
    var first := Piece(text, '\n');
    if |first| < 2 || first[..2] != "OK" then Some([])
    else if |first| < 3 then None
    else
      match Stoi(first[3..])
      case None => None
      case Some(n) => Some(ReadRecords(After(text, '\n'), if n < 0 then 0 else n))
  }

  /** A record as it arrives: the slave "-" has become none. */
  function Arrived(r: Record): Record {
    r.(slaveIp := if r.slaveIp == "-" then "" else r.slaveIp)
  }

  function Undashed(rs: seq<Record>): (r: seq<Record>)
    ensures |r| == |rs| && forall i :: 0 <= i < |rs| ==> r[i] == Arrived(rs[i])
  {
    if rs == [] then [] else [Arrived(rs[0])] + Undashed(rs[1..])
  }

  lemma {:induction false} RecordsBack(rs: seq<Record>)
    requires forall r :: r in rs ==> Sendable(r)
    ensures ReadRecords(RecordLines(rs), |rs|) == Undashed(rs)
  {
    if rs != [] {
      hide RecordText, ParseRecord, Sendable, Piece, After;
      assert rs[0] in rs;
      RecordIsOneLine(rs[0]);
      RecordBack(rs[0]);
      PieceBack(RecordText(rs[0]), '\n', RecordLines(rs[1..]));
      RecordsBack(rs[1..]);
    }
  }

  /** The client rebuilds exactly the records that were printed, in order, if and only if
      none of them has a slave called "-". */
  lemma ListRoundTrip(rs: seq<Record>)
    requires (forall r :: r in rs ==> Sendable(r)) && IsInt(|rs|)
    ensures ReadList(ListText(rs)) == Some(Undashed(rs))
    ensures ReadList(ListText(rs)) == Some(rs) <==> forall r :: r in rs ==> r.slaveIp != "-"
  {
    hide RecordLines, ReadRecords, Sendable, ToString, Stoi, Undashed;
    var first := "OK " + ToString(|rs|);
    assert NoNewline(first) by {
      NumberIsWord(|rs|);
      hide *;
      WordHasNoNewline(ToString(|rs|));
      OkHasNoNewline();
      NoNewlineConcat("OK ", ToString(|rs|));
    }
    PieceBack(first, '\n', RecordLines(rs));
    assert ListText(rs) == first + "\n" + RecordLines(rs);
    assert first[3..] == ToString(|rs|) && first[..2] == "OK";
    StoiBack(|rs|, "");
    assert ToString(|rs|) + "" == ToString(|rs|);
    RecordsBack(rs);
    UndashedSame(rs);
  }

  /** A line that is not there reads as a record without a name. */
  const NO_RECORD := Record("", "", -1, "", "")

  function NoRecords(n: nat): (r: seq<Record>)
    ensures |r| == n && forall i :: 0 <= i < n ==> r[i] == NO_RECORD
  {
    if n == 0 then [] else [NO_RECORD] + NoRecords(n - 1)
  }

  lemma {:induction false} RecordsRead(rs: seq<Record>, count: nat)
    requires count <= |rs| && forall r :: r in rs ==> Sendable(r)
    ensures ReadRecords(RecordLines(rs), count) == Undashed(rs[..count])
    decreases count
  {
    hide RecordLines, Sendable, ParseRecord, RecordText, ReadRecords, Undashed, Piece, After;
    if count == 0 {
      NoneRead(RecordLines(rs));
      NothingUndashed();
    } else {
      assert rs[0] in rs;
      FirstRecord(rs);
      ReadOne(RecordLines(rs), count);
      RecordsRead(rs[1..], count - 1);
      UndashedFirst(rs[..count]);
      assert rs[..count][1..] == rs[1..][..count - 1];
    }
  }

  lemma {:induction false} RecordsMissing(rs: seq<Record>, count: nat)
    requires count >= |rs| && forall r :: r in rs ==> Sendable(r)
    ensures ReadRecords(RecordLines(rs), count) == Undashed(rs) + NoRecords(count - |rs|)
    decreases count
  {
    hide RecordLines, Sendable, ParseRecord, RecordText, ReadRecords, Undashed, Piece, After;
    if count == 0 {
      NoneRead(RecordLines(rs));
      NothingUndashed();
    } else if rs == [] {
      BlankReads();
      RecordsMissing(rs, count - 1);
      ReadOne("", count);
      NothingUndashed();
    } else {
      assert rs[0] in rs;
      FirstRecord(rs);
      ReadOne(RecordLines(rs), count);
      RecordsMissing(rs[1..], count - 1);
      UndashedFirst(rs);
    }
  }

  lemma FirstRecord(rs: seq<Record>)
    requires rs != [] && Sendable(rs[0])
    ensures Piece(RecordLines(rs), '\n') == RecordText(rs[0]) && After(RecordLines(rs), '\n') == RecordLines(rs[1..])
    ensures ParseRecord(RecordText(rs[0])) == Arrived(rs[0])
  {
    hide RecordText, ParseRecord, Sendable, Piece, After;
    var line := RecordText(rs[0]);
    RecordBack(rs[0]);
    RecordIsOneLine(rs[0]);
    PieceBack(line, '\n', RecordLines(rs[1..]));
    assert RecordLines(rs) == line + ['\n'] + RecordLines(rs[1..]);
  }

  lemma UndashedFirst(rs: seq<Record>)
    requires rs != []
    ensures Undashed(rs) == [Arrived(rs[0])] + Undashed(rs[1..])
  {
  }

  lemma NothingUndashed()
    ensures Undashed([]) == [] && RecordLines([]) == "" && forall rs: seq<Record> :: rs[..0] == []
  {
  }

  lemma BlankReads()
    ensures Piece("", '\n') == "" && After("", '\n') == "" && ParseRecord("") == NO_RECORD
  {
  }

  lemma AnnouncedRead(k: int, rest: string)
    ensures ReadList("OK " + ToString(k) + "\n" + rest) ==
      if IsInt(k) then Some(ReadRecords(rest, if k < 0 then 0 else k)) else None
  {
    hide ReadRecords, Piece, After, Stoi;
    var first := "OK " + ToString(k);
    assert NoNewline(first) by {
      NumberIsWord(k);
      WordHasNoNewline(ToString(k));
      OkHasNoNewline();
      NoNewlineConcat("OK ", ToString(k));
    }
    PieceBack(first, '\n', rest);
    assert first[3..] == ToString(k) && first[..2] == "OK";
    AnyNumber(k, "", 0);
    assert ToString(k) + "" == ToString(k);
  }

  /** A LIST reply that announces any other number than it has records: the client reads
      as many as are announced, and makes up nameless ones for those that are missing; a
      negative number is none; one that does not fit an int makes it throw. */
  lemma AnnouncedCount(rs: seq<Record>, k: int)
    requires forall r :: r in rs ==> Sendable(r)
    ensures ReadList("OK " + ToString(k) + "\n" + RecordLines(rs)) ==
      if !IsInt(k) then None
      else if k < 0 then Some([])
      else if k <= |rs| then Some(Undashed(rs[..k]))
      else Some(Undashed(rs) + NoRecords(k - |rs|))
  {
    hide RecordLines, ReadRecords, ReadList, Sendable, ToString;
    AnnouncedRead(k, RecordLines(rs));
    if 0 <= k <= |rs| {
      RecordsRead(rs, k);
    } else if k > |rs| {
      RecordsMissing(rs, k);
    }
    NoneRead(RecordLines(rs));
  }

  lemma NoneRead(text: string)
    ensures ReadRecords(text, 0) == []
  {
  }

  /** Any other first line: without the OK nothing is listed or found; with it but nothing
      behind it, or no number, list throws and lookup finds nothing. */
  lemma RefusedReplies(line: string, rest: string)
    requires '\n' !in line
    ensures |line| < 2 || line[..2] != "OK" ==> ReadList(line + "\n" + rest) == Some([]) && ReadLookup(line) == None
    ensures line == "OK" ==> ReadList(line + "\n" + rest) == None && ReadLookup(line) == None
    ensures |line| > 3 && line[..2] == "OK" && !IsSpace(line[3]) && !IsDigit(line[3]) && line[3] != '-' && line[3] != '+' ==>
      ReadList(line + "\n" + rest) == None
  {
    hide Piece, After, Stoi, ParseRecord;
    PieceBack(line, '\n', rest);
    if |line| > 3 && !IsSpace(line[3]) && !IsDigit(line[3]) && line[3] != '-' && line[3] != '+' {
      NoNumber(line[3..], 0);
    }
  }

  /** A record whose slave is called "-" comes back without one. */
  lemma DashIsLost()
    ensures var r := Record("a", "b", 1, "active", "-");
      ReadList(ListText([r])) == Some([Record("a", "b", 1, "active", "")])
  {
    var r := Record("a", "b", 1, "active", "-");
    assert Sendable(r);
    ListRoundTrip([r]);
    assert Undashed([r]) == [Arrived(r)];
  }

  lemma OkHasNoNewline()
    ensures NoNewline("OK ")
  {
  }

  lemma UndashedSame(rs: seq<Record>)
    ensures Undashed(rs) == rs <==> forall r :: r in rs ==> r.slaveIp != "-"
  {
    if Undashed(rs) == rs {
      forall r | r in rs ensures r.slaveIp != "-" {
        var i :| 0 <= i < |rs| && rs[i] == r;
        assert Undashed(rs)[i] == rs[i];
      }
    }
  }

  // ----- LOOKUP -----

  function LookupText(r: Option<Record>): string {
    match r
    case None => "ERROR not_found\n"
    case Some(rec) => "OK " + RecordText(rec) + "\n"
  }

  function ReadLookup(reply: string): Option<Record> {
    if |reply| < 2 || reply[..2] != "OK" then None
    else if |reply| < 3 then None
    else Some(ParseRecord(reply[3..]))
  }

  lemma LookupRoundTrip(r: Option<Record>)
    requires r.Some? ==> Sendable(r.value)
    ensures ReadLookup(Piece(LookupText(r), '\n')) == r <==> (r.Some? ==> r.value.slaveIp != "-")
  {
    hide RecordText, ParseRecord, Sendable, Piece, After;
    if r.Some? {
      RecordBack(r.value);
      RecordIsOneLine(r.value);
      OkHasNoNewline();
      var line := "OK " + RecordText(r.value);
      NoNewlineConcat("OK ", RecordText(r.value));
      PieceBack(line, '\n', "");
      assert LookupText(r) == line + ['\n'] + "";
      assert line[3..] == RecordText(r.value) && line[..2] == "OK";
    } else {
      PieceBack("ERROR not_found", '\n', "");
      assert LookupText(r) == "ERROR not_found" + ['\n'] + "";
      assert "ERROR not_found"[..2] == "ER";
    }
  }

  // ----- REGISTER -----

  /** What registerAgent sends, slave being this host's address in a cluster or "". */
  function RegisterText(name: string, pid: int, endpoint: string, slave: string): string {
    "REGISTER" + (" " + name + (" " + ToString(pid) + (" " + endpoint + (if slave == "" then "" else " " + slave))))
  }

  lemma RegisterIsOneLine(name: string, pid: int, endpoint: string, slave: string)
    requires IsWord(name) && IsWord(endpoint) && (slave == "" || IsWord(slave))
    ensures NoNewline(RegisterText(name, pid, endpoint, slave))
  {
    CommandIsWord();
    NumberIsWord(pid);
    WordHasNoNewline("REGISTER");
    WordHasNoNewline(name);
    WordHasNoNewline(ToString(pid));
    WordHasNoNewline(endpoint);
    SpaceHasNoNewline();
    var t3 := if slave == "" then "" else " " + slave;
    assert NoNewline(t3) by {
      if slave != "" {
        WordHasNoNewline(slave);
        NoNewlineConcat(" ", slave);
      }
    }
    hide NoNewline, IsWord, ToString;
    NoNewlineConcat(" ", endpoint);
    NoNewlineConcat(" " + endpoint, t3);
    NoNewlineConcat(" ", ToString(pid));
    NoNewlineConcat(" " + ToString(pid), " " + endpoint + t3);
    NoNewlineConcat(" ", name);
    NoNewlineConcat(" " + name, " " + ToString(pid) + (" " + endpoint + t3));
    NoNewlineConcat("REGISTER", " " + name + (" " + ToString(pid) + (" " + endpoint + t3)));
  }

  /** The record that a REGISTER line asks for: a missing slave is the peer's address. */
  function ParseRegister(line: string, peer: string): (string, Record) {
    var (cmd, i0) := GetWord(Input(line, true));
    var (name, i1) := GetWord(i0);
    var (pid, i2) := GetInt(i1, -1);
    var (address, i3) := GetWord(i2);
    var (slave, _) := GetWord(i3);
    (cmd, Record(name, address, pid, "active", if slave == "" && peer != "" then peer else slave))
  }

  lemma CommandIsWord()
    ensures IsWord("REGISTER")
  {
  }

  lemma NoMoreWords()
    ensures GetWord(Input("", true)).0 == ""
  {
  }

  lemma RegisterWords(name: string, pid: int, endpoint: string, slave: string, peer: string)
    requires IsWord(name) && IsInt(pid) && IsWord(endpoint) && (slave == "" || IsWord(slave))
    ensures ParseRegister(RegisterText(name, pid, endpoint, slave), peer) ==
      ("REGISTER", Record(name, endpoint, pid, "active", if slave == "" then peer else slave))
  {
    hide GetWord, GetInt, ToString, IsWord, EndsHere;
    CommandIsWord();
    NoMoreWords();
    var t3 := if slave == "" then "" else " " + slave;
    var t2 := " " + endpoint + t3;
    var t1 := " " + ToString(pid) + t2;
    var t0 := " " + name + t1;
    Space(slave);
    Space(endpoint + t3);
    Space(ToString(pid) + t2);
    Space(name + t1);
    assert t2 == " " + (endpoint + t3) && t1 == " " + (ToString(pid) + t2) && t0 == " " + (name + t1);
    GetWordBack("REGISTER", t0);
    GetWordBack(name, t1);
    GetIntBack(pid, t2, -1);
    GetWordBack(endpoint, t3);
    if slave != "" {
      assert t3 == " " + slave + "";
      GetWordBack(slave, "");
    }
  }

  /** The line that is sent, read up to its end, gives the record it was made from. */
  lemma RegisterBack(name: string, pid: int, endpoint: string, slave: string, peer: string)
    requires IsWord(name) && IsInt(pid) && IsWord(endpoint) && (slave == "" || IsWord(slave))
    ensures ParseRegister(Piece(RegisterText(name, pid, endpoint, slave) + "\n", '\n'), peer) ==
      ("REGISTER", Record(name, endpoint, pid, "active", if slave == "" then peer else slave))
  {
    hide ParseRegister, RegisterText, IsWord, Piece, After;
    var line := RegisterText(name, pid, endpoint, slave);
    RegisterIsOneLine(name, pid, endpoint, slave);
    PieceBack(line, '\n', "");
    assert line + "\n" == line + ['\n'] + "";
    RegisterWords(name, pid, endpoint, slave, peer);
  }

  // ----- the registry -----

  lemma NumberTaken(t: string, ws: seq<string>, n: int, before: int)
    requires Holds(t, ws) && ws != [] && ws[0] == ToString(n)
    ensures GetInt(Input(t, true), before).0 == Clamped(n)
    ensures GetInt(Input(t, true), before).1.good <==> IsInt(n)
    ensures IsInt(n) ==> Holds(GetInt(Input(t, true), before).1.text, ws[1..])
  {
    hide IsWord, SkipSpaces, NumberAt;
    var gap, rest := Opened(t, ws);
    NumberStarts(n, rest);
    SkipGap(gap, ToString(n) + rest);
    NumberBack(n, rest);
    NumberIsWord(n);
    WordStarts(ToString(n), rest);
  }

  lemma WordStarts(w: string, rest: string)
    requires IsWord(w)
    ensures w + rest != "" && !IsSpace((w + rest)[0])
  {
    assert w[0] in w;
  }

  lemma NoNumberLeft(t: string, before: int)
    requires Holds(t, [])
    ensures GetInt(Input(t, true), before).0 == before && !GetInt(Input(t, true), before).1.good
  {
    SkipGap(t, "");
    assert t + "" == t;
  }

  /** Any line, by its words, whatever is missing from it: the second is the name; the
      third the process, if it is a number, -1 if there is no third word, and the nearest
      int if it is out of range; the fourth is the address and the fifth the slave, unless
      the reading has failed before; no slave means the peer. */
  lemma RegisterByWords(line: string, ws: seq<string>, peer: string, n: int)
    requires Holds(line, ws) && (|ws| > 2 ==> ws[2] == ToString(n))
    ensures var (cmd, rec) := ParseRegister(line, peer);
      && cmd == (if |ws| > 0 then ws[0] else "") && rec.name == (if |ws| > 1 then ws[1] else "")
      && rec.pid == (if |ws| > 2 then Clamped(n) else -1)
      && rec.address == (if |ws| > 3 && IsInt(n) then ws[3] else "")
      && rec.slaveIp == (if |ws| > 4 && IsInt(n) then ws[4] else peer)
      && rec.state == "active"
  {
    hide GetWord, GetInt, Holds;
    WordTaken(line, ws);
    var i0 := GetWord(Input(line, true)).1;
    BadReads(i0);
    BadNumbers(i0, -1);
    if ws != [] {
      WordTaken(i0.text, ws[1..]);
      var i1 := GetWord(i0).1;
      BadReads(i1);
      BadNumbers(i1, -1);
      if |ws| == 2 {
        assert ws[1..][1..] == [];
        NoNumberLeft(i1.text, -1);
      } else if |ws| > 2 {
        assert ws[1..][1..] == ws[2..];
        NumberTaken(i1.text, ws[2..], n, -1);
        RestOfWords(i1, ws, n);
      }
      if |ws| <= 2 {
        BadReads(GetInt(i1, -1).1);
      }
    } else {
      BadReads(GetInt(i0, -1).1);
    }
  }

  lemma BadNumbers(i: Input, before: int)
    ensures !i.good ==> GetInt(i, before) == (before, i)
  {
  }

  /** What follows the process. */
  lemma RestOfWords(i: Input, ws: seq<string>, n: int)
    requires |ws| > 2 && i.good && Holds(i.text, ws[2..]) && ws[2] == ToString(n)
    ensures var (address, i3) := GetWord(GetInt(i, -1).1);
      && address == (if |ws| > 3 && IsInt(n) then ws[3] else "")
      && GetWord(i3).0 == (if |ws| > 4 && IsInt(n) then ws[4] else "")
    ensures |ws| > 4 ==> ws[4] != ""
  {
    hide GetWord, GetInt, Holds;
    NumberTaken(i.text, ws[2..], n, -1);
    var i2 := GetInt(Input(i.text, true), -1).1;
    BadReads(i2);
    assert ws[2..][1..] == ws[3..];
    if IsInt(n) {
      WordTaken(i2.text, ws[3..]);
      var i3 := GetWord(i2).1;
      BadReads(i3);
      if |ws| > 3 {
        assert ws[3..][1..] == ws[4..];
        WordTaken(i3.text, ws[4..]);
      }
    }
    WordsHold(i.text, ws[2..]);
  }

  lemma {:induction false} WordsHold(t: string, ws: seq<string>)
    requires Holds(t, ws)
    ensures forall i :: 0 <= i < |ws| ==> ws[i] != ""
    decreases |ws|
  {
    if ws != [] {
      var gap, rest := Opened(t, ws);
      WordsHold(rest, ws[1..]);
      forall i | 1 <= i < |ws| ensures ws[i] != "" {
        assert ws[1..][i - 1] == ws[i];
      }
    }
  }

  /** A name is registered once; the first record stays. */
  function Entered(registry: map<string, Record>, rec: Record): map<string, Record> {
    if rec.name in registry then registry else registry[rec.name := rec]
  }

  /** An agent on this host is alive if its process is; about others nothing is known. */
  predicate Alive(r: Record, dead: set<int>) {
    r.slaveIp != "" || r.pid !in dead
  }

  function Living(registry: map<string, Record>, dead: set<int>): map<string, Record> {
    map n | n in registry && Alive(registry[n], dead) :: registry[n]
  }

  class Ams {
    var registry: map<string, Record>

    constructor ()
      ensures registry == map[]
    {
      registry := map[];
    }

    method RegisterAgent(rec: Record) returns (ok: bool)
      modifies this
      ensures ok <==> rec.name !in old(registry)
      ensures registry == if ok then old(registry)[rec.name := rec] else old(registry)
    {
      if rec.name in registry {
        return false;
      }
      registry := registry[rec.name := rec];
      return true;
    }

    method RegisterEndpoint(rec: Record)
      modifies this
      ensures registry == old(registry)[rec.name := rec]
    {
      registry := registry[rec.name := rec];
    }

    method DeregisterAgent(name: string) returns (ok: bool)
      modifies this
      ensures ok <==> name in old(registry)
      ensures registry == old(registry) - {name}
    {
      if name !in registry {
        return false;
      }
      registry := registry - {name};
      return true;
    }

    method SetState(name: string, state: string) returns (ok: bool)
      modifies this
      ensures ok <==> name in old(registry)
      ensures registry == if ok then old(registry)[name := old(registry)[name].(state := state)] else old(registry)
    {
      if name !in registry {
        return false;
      }
      registry := registry[name := registry[name].(state := state)];
      return true;
    }

    /** REGISTER: the rest of the line makes the record. */
    method HandleRegister(line: string, peer: string) returns (reply: string)
      modifies this
      ensures var rec := ParseRegister(line, peer).1;
        && registry == Entered(old(registry), rec)
        && reply == if rec.name in old(registry) then "ERROR already_registered\n" else "OK\n"
    {
      var (cmd, rec) := ParseRegister(line, peer);
      var ok := RegisterAgent(rec);
      reply := if ok then "OK\n" else "ERROR already_registered\n";
    }

    /** LOOKUP: a local agent whose process is dead is forgotten and not found. */
    method HandleLookup(name: string, dead: set<int>) returns (reply: string)
      modifies this
      ensures var gone := name in old(registry) && old(registry)[name].slaveIp == "" && old(registry)[name].pid in dead;
        && registry == (if gone then old(registry) - {name} else old(registry))
        && reply == LookupText(if name in registry then Some(registry[name]) else None)
    {
      if name in registry && registry[name].slaveIp == "" && registry[name].pid in dead {
        registry := registry - {name};
      }
      if name in registry {
        var slave := if registry[name].slaveIp == "" then "-" else registry[name].slaveIp;
        reply := "OK " + (registry[name].name + (" " + ToString(registry[name].pid) + (" " + registry[name].address
          + (" " + registry[name].state + (" " + slave))))) + "\n";
      } else {
        reply := "ERROR not_found\n";
      }
    }

    /** LIST: dead local agents are forgotten, and all others printed, each once. */
    method HandleList(dead: set<int>) returns (reply: string)
      modifies this
      ensures registry == Living(old(registry), dead)
      ensures exists printed :: reply == ListText(printed) && Lists(printed, registry)
    {
      PurgeDead(dead);
      var body := PrintAll();
      ghost var printed :| body == RecordLines(printed) && Lists(printed, registry);
      reply := "OK " + ToString(|registry|) + "\n" + body;
      assert reply == ListText(printed);
    }

    method PrintAll() returns (body: string)
      ensures exists printed :: body == RecordLines(printed) && Lists(printed, registry)
    {
      hide RecordLines;
      ghost var order: seq<string>, printed: seq<Record> := [], [];
      body := "";
      NoLines();
      var left := registry.Keys;
      while left != {}
        invariant left <= registry.Keys && |printed| + |left| == |registry| && |order| == |printed|
        invariant forall i :: 0 <= i < |order| ==> order[i] in registry && printed[i] == registry[order[i]]
        invariant forall n :: n in registry <==> n in left || n in order
        invariant body == RecordLines(printed)
        decreases |left|
      {
        var n :| n in left;
        var r := registry[n];
        var slave := if r.slaveIp == "" then "-" else r.slaveIp;
        RecordLinesAppend(printed, r);
        body := body + (r.name + (" " + ToString(r.pid) + (" " + r.address + (" " + r.state + (" " + slave)))) + "\n");
        left := left - {n};
        printed := printed + [r];
        order := order + [n];
      }
      PrintedAll(registry, order, printed);
    }

    method PurgeDead(dead: set<int>)
      modifies this
      ensures registry == Living(old(registry), dead)
    {
      var left := registry.Keys;
      while left != {}
        invariant left <= old(registry).Keys
        invariant forall n :: n in registry ==> n in old(registry) && registry[n] == old(registry)[n]
        invariant forall n :: n in old(registry) && n in left ==> n in registry
        invariant forall n :: n in old(registry) && n !in left ==>
          (n in registry <==> !(old(registry)[n].slaveIp == "" && old(registry)[n].pid in dead))
        decreases |left|
      {
        var n :| n in left;
        left := left - {n};
        if registry[n].slaveIp == "" && registry[n].pid in dead {
          registry := registry - {n};
        }
      }
    }
  }

  /** The records of the registry, each once, in some order. */
  ghost predicate Lists(printed: seq<Record>, registry: map<string, Record>) {
    |printed| == |registry| && forall r :: r in printed <==> r in registry.Values
  }

  lemma NoLines()
    ensures RecordLines([]) == ""
  {
  }

  lemma PrintedAll(registry: map<string, Record>, order: seq<string>, printed: seq<Record>)
    requires |order| == |printed|
    requires forall i :: 0 <= i < |order| ==> order[i] in registry && printed[i] == registry[order[i]]
    requires forall n :: n in registry <==> n in order
    ensures forall r :: r in printed <==> r in registry.Values
  {
    forall r | r in registry.Values ensures r in printed {
      var n :| n in registry && registry[n] == r;
      var i :| 0 <= i < |order| && order[i] == n;
      assert printed[i] == r;
    }
    forall r | r in printed ensures r in registry.Values {
      var i :| 0 <= i < |printed| && printed[i] == r;
      assert order[i] in registry;
    }
  }

  lemma RecordLinesAppend(rs: seq<Record>, r: Record)
    ensures RecordLines(rs + [r]) == RecordLines(rs) + (RecordText(r) + "\n")
  {
    hide RecordText;
    if rs == [] {
      assert rs + [r] == [r] && [r][1..] == [];
      assert RecordLines([r]) == RecordText(r) + "\n" + "";
      assert RecordLines(rs) + (RecordText(r) + "\n") == RecordText(r) + "\n";
    } else {
      assert (rs + [r])[1..] == rs[1..] + [r];
      RecordLinesAppend(rs[1..], r);
      assert RecordText(rs[0]) + "\n" + (RecordLines(rs[1..]) + (RecordText(r) + "\n"))
          == RecordText(rs[0]) + "\n" + RecordLines(rs[1..]) + (RecordText(r) + "\n");
    }
  }

  // ----- the client -----

  /** AMSClient::list on the reply in the socket. */
  method ClientList(s: Socket) returns (result: Option<seq<Record>>)
    modifies s
    ensures result == ReadList(old(s.rest))
  {
    hide Stoi, ReadRecords, Piece, After;
    var first := ReadlineFd(s);
    if |first| < 2 || first[..2] != "OK" {
      return Some([]);
    }
    if |first| < 3 {
      return None;
    }
    var count := Stoi(first[3..]);
    if count.None? {
      return None;
    }
    var infos := ReadInfos(s, count.value);
    return Some(infos);
  }

  method ReadInfos(s: Socket, count: int) returns (infos: seq<Record>)
    modifies s
    ensures infos == ReadRecords(old(s.rest), if count < 0 then 0 else count)
  {
    hide ParseRecord, Piece, After;
    infos := [];
    ghost var text := s.rest;
    var i := 0;
    while i < count
      invariant 0 <= i && (i <= count || i == 0)
      invariant ReadRecords(text, if count < 0 then 0 else count) == infos + ReadRecords(s.rest, if count < i then 0 else count - i)
      decreases count - i
    {
      ghost var before := infos;
      ReadOne(s.rest, count - i);
      var line := ReadlineFd(s);
      var info := ParseRecord(line);
      infos := infos + [info];
      i := i + 1;
      assert before + ([info] + ReadRecords(s.rest, count - i)) == infos + ReadRecords(s.rest, count - i);
    }
    assert infos + [] == infos;
  }

  lemma ReadOne(text: string, count: nat)
    requires count > 0
    ensures ReadRecords(text, count) == [ParseRecord(Piece(text, '\n'))] + ReadRecords(After(text, '\n'), count - 1)
  {
  }

  predicate Keyed(registry: map<string, Record>) {
    forall n :: n in registry ==> registry[n].name == n && Sendable(registry[n])
  }

  lemma ArrivedIn(printed: seq<Record>, r: Record)
    ensures r in Undashed(printed) <==> exists p :: p in printed && Arrived(p) == r
  {
    if r in Undashed(printed) {
      var i :| 0 <= i < |printed| && Undashed(printed)[i] == r;
      assert printed[i] in printed;
    }
    if exists p :: p in printed && Arrived(p) == r {
      var p :| p in printed && Arrived(p) == r;
      var i :| 0 <= i < |printed| && printed[i] == p;
      assert Undashed(printed)[i] == r;
    }
  }

  /** What one name contributes to the list. */
  lemma ListedUnder(registry: map<string, Record>, dead: set<int>, printed: seq<Record>, r: Record)
    requires Keyed(registry) && Lists(printed, Living(registry, dead))
    ensures r in Undashed(printed) <==> r.name in registry && Alive(registry[r.name], dead) && Arrived(registry[r.name]) == r
  {
    hide Sendable;
    ArrivedIn(printed, r);
    var living := Living(registry, dead);
    if r in Undashed(printed) {
      var p :| p in printed && Arrived(p) == r;
      assert p in living.Values;
      var n :| n in living && living[n] == p;
      assert p.name == n && r.name == n;
    }
    if r.name in registry && Alive(registry[r.name], dead) {
      assert living[r.name] in living.Values;
    }
  }

  lemma LivingSendable(registry: map<string, Record>, dead: set<int>, printed: seq<Record>)
    requires Keyed(registry) && Lists(printed, Living(registry, dead))
    ensures forall r :: r in printed ==> Sendable(r)
  {
    hide Sendable;
    forall r | r in printed ensures Sendable(r) {
      assert r in Living(registry, dead).Values;
      var n :| n in Living(registry, dead) && Living(registry, dead)[n] == r;
    }
  }

  /** From one client's REGISTER line, through the registry, to another client's list,
      whatever else is registered and whatever processes have died. A new agent is listed
      just as it was registered if and only if its host is not called "-" and it is not a
      dead agent of this host; under a name that was taken only the earlier agent can be
      listed; and every other living agent is listed. */
  lemma RegisteredIsListed(registry: map<string, Record>, name: string, pid: int, endpoint: string, slave: string, peer: string,
                           dead: set<int>, printed: seq<Record>)
    requires IsWord(name) && IsInt(pid) && IsWord(endpoint) && (slave == "" || IsWord(slave)) && (peer == "" || IsWord(peer))
    requires Keyed(registry) && IsInt(|printed|)
    requires Lists(printed,
      Living(Entered(registry, ParseRegister(Piece(RegisterText(name, pid, endpoint, slave) + "\n", '\n'), peer).1), dead))
    ensures var listed := ReadList(ListText(printed));
      var home := if slave == "" then peer else slave;
      && listed.Some?
      && (name !in registry ==>
            (Record(name, endpoint, pid, "active", home) in listed.value <==> home != "-" && !(home == "" && pid in dead)))
      && (name in registry ==>
            forall r :: r in listed.value && r.name == name ==> Alive(registry[name], dead) && r == Arrived(registry[name]))
      && (forall n :: n in registry && Alive(registry[n], dead) ==> Arrived(registry[n]) in listed.value)
  {
    hide ParseRegister, RegisterText, ReadList, ListText, IsWord, Piece, Undashed, Lists, Living;
    RegisterBack(name, pid, endpoint, slave, peer);
    ActiveIsWord();
    var home := if slave == "" then peer else slave;
    var rec := Record(name, endpoint, pid, "active", home);
    var after := Entered(registry, rec);
    assert Keyed(after);
    LivingSendable(after, dead, printed);
    ListRoundTrip(printed);
    forall r ensures
      r in Undashed(printed) <==> r.name in after && Alive(after[r.name], dead) && Arrived(after[r.name]) == r
    {
      ListedUnder(after, dead, printed, r);
    }
  }

  lemma ActiveIsWord()
    ensures IsWord("active")
  {
  }
}
