/** Agents on the move: an agent's attributes as text, the ARRIVE line that carries them,
    and their reading by the migration server and by the environment. */
module Migration {
  import opened Options
  import opened TextStreams
  import opened AmsProtocol

  type Attributes = map<string, string>

  // ----- printing -----

  /** The attributes as text, in the order of the keys given. */
  function AttributesText(m: Attributes, order: seq<string>): string
    requires forall k :: k in order ==> k in m
  {
    if order == [] then ""
    else order[0] + (":" + (m[order[0]] + (";" + AttributesText(m, order[1..]))))
  }

  ghost predicate Enumerates(order: seq<string>, m: Attributes) {
    |order| == |m| && forall k :: k in order <==> k in m
  }

  ghost function Carried(m: Attributes, order: seq<string>): string
    requires Enumerates(order, m)
  {
    if m == map[] then "-" else AttributesText(m, order)
  }

  function ArriveText(typeName: string, name: string, attrs: string): string {
    "ARRIVE" + (" " + typeName + (" " + name + (" " + attrs)))
  }

  // ----- reading -----

  /** One piece between semicolons: an assignment if it has a colon. */
  function Put(m: Attributes, piece: string): Attributes {
    if ':' in piece then m[Piece(piece, ':') := After(piece, ':')] else m
  }

  /** The pieces of the text put into m, one after the other. */
  function ParseAttributes(m: Attributes, text: string): Attributes
    decreases |text|
  {
    if text == "" then m else ParseAttributes(Put(m, Piece(text, ';')), After(text, ';'))
  }

  /** parseKeyValSeq: clears the map it is given, and says whether anything was read. */
  method ParseKeyValSeq(input: string) returns (m: Attributes, any: bool)
    ensures m == ParseAttributes(map[], input) && any == (m != map[])
  {
    m := map[];
    var rest := input;
    while rest != ""
      invariant ParseAttributes(map[], input) == ParseAttributes(m, rest)
      decreases |rest|
    {
      var token := Piece(rest, ';');
      rest := After(rest, ';');
      if ':' !in token {
        continue;
      }
      m := m[Piece(token, ':') := After(token, ':')];
    }
    any := m != map[];
  }

  // ----- the round trip of the attributes -----

  predicate CleanKey(k: string) {
    ':' !in k && ';' !in k
  }

  /** Attributes that can be told apart again. */
  predicate Separable(m: Attributes) {
    forall k :: k in m ==> CleanKey(k) && ';' !in m[k]
  }

  lemma EntryBack(m: Attributes, k: string, v: string, rest: string)
    requires CleanKey(k) && ';' !in v
    ensures var text := k + (":" + (v + (";" + rest)));
      ParseAttributes(m, text) == ParseAttributes(m[k := v], rest)
  {
    var text := k + (":" + (v + (";" + rest)));
    var piece := k + ":" + v;
    assert text == piece + ";" + rest;
    PieceBack(piece, ';', rest);
    PieceBack(k, ':', v);
    assert ':' in piece by { assert piece[|k|] == ':'; }
  }

  lemma {:induction false} AttributesBack(m0: Attributes, m: Attributes, order: seq<string>)
    requires forall k :: k in order ==> k in m && CleanKey(k) && ';' !in m[k]
    ensures ParseAttributes(m0, AttributesText(m, order)) == m0 + Chosen(m, order)
    decreases |order|
  {
    if order != [] {
      hide ParseAttributes, CleanKey, Chosen;
      var k := order[0];
      assert k in order;
      EntryBack(m0, k, m[k], AttributesText(m, order[1..]));
      AttributesBack(m0[k := m[k]], m, order[1..]);
      ChosenFirst(m0, m, order);
    } else {
      NothingToParse(m0);
      assert m0 + Chosen(m, order) == m0;
    }
  }

  function Chosen(m: Attributes, order: seq<string>): Attributes
    requires forall k :: k in order ==> k in m
  {
    map k | k in order :: m[k]
  }

  lemma ChosenFirst(m0: Attributes, m: Attributes, order: seq<string>)
    requires order != [] && forall k :: k in order ==> k in m
    ensures m0[order[0] := m[order[0]]] + Chosen(m, order[1..]) == m0 + Chosen(m, order)
  {
    assert order == [order[0]] + order[1..];
  }

  lemma NothingToParse(m: Attributes)
    ensures ParseAttributes(m, "") == m
  {
  }

  lemma ChosenAll(m: Attributes, order: seq<string>)
    requires Enumerates(order, m)
    ensures map[] + Chosen(m, order) == m
  {
  }

  predicate Without(t: string, bad: set<char>) {
    forall c :: c in t ==> c !in bad
  }

  /** Whatever is read has clean keys and values, and no character that is not in the
      text. */
  lemma {:induction false} ParsedIsSeparable(m: Attributes, text: string, bad: set<char>)
    requires Without(text, bad)
    ensures forall k :: k in ParseAttributes(m, text) && (k !in m || m[k] != ParseAttributes(m, text)[k]) ==>
      CleanKey(k) && ';' !in ParseAttributes(m, text)[k] && Without(k, bad) && Without(ParseAttributes(m, text)[k], bad)
    decreases |text|
  {
    if text != "" {
      hide CleanKey, Without;
      var piece, rest := Piece(text, ';'), After(text, ';');
      PiecesWithout(text, ';', bad);
      PiecesWithout(piece, ':', bad);
      ParsedIsSeparable(Put(m, piece), rest, bad);
      if ':' in piece {
        PieceIsClean(text);
      }
    }
  }

  lemma PiecesWithout(t: string, sep: char, bad: set<char>)
    requires Without(t, bad)
    ensures Without(Piece(t, sep), bad) && Without(After(t, sep), bad)
  {
    var p := Piece(t, sep);
    forall c | c in p ensures c in t {
      var i :| 0 <= i < |p| && p[i] == c;
      assert t[..|p|][i] == t[i];
    }
  }

  lemma PieceIsClean(text: string)
    ensures var piece := Piece(text, ';'); CleanKey(Piece(piece, ':')) && ';' !in After(piece, ':')
  {
    var piece := Piece(text, ';');
    var k := Piece(piece, ':');
    forall i | 0 <= i < |k| ensures k[i] != ';' {
      assert piece[..|k|][i] == piece[i];
    }
  }

  lemma WithoutNothing(t: string)
    ensures Without(t, {})
  {
  }

  /** Reading the update an agent sends gives its attributes back, if and only if they
      are separable; that it is reported as non-empty then means that there are any. */
  lemma UpdateRoundTrip(m: Attributes, order: seq<string>)
    requires Enumerates(order, m)
    ensures ParseAttributes(map[], AttributesText(m, order)) == m <==> Separable(m)
  {
    hide ParseAttributes, CleanKey;
    var text := AttributesText(m, order);
    WithoutNothing(text);
    ParsedIsSeparable(map[], text, {});
    if Separable(m) {
      AttributesBack(map[], m, order);
      ChosenAll(m, order);
    }
  }

  // ----- the ARRIVE line -----

  datatype Arrival = BadFormat | UnknownType(typeName: string) | Arrived(typeName: string, name: string, attributes: Attributes)

  function Stripped(line: string): string {
    if line != "" && line[|line| - 1] == '\r' then line[..|line| - 1] else line
  }

  /** What the migration server makes of a line: known are the registered types, born the
      attributes that a new agent of the type has. */
  function ReadArrival(line: string, known: set<string>, born: Attributes): Arrival {
    var (cmd, i1) := GetWord(Input(Stripped(line), true));
    var (typeName, i2) := GetWord(i1);
    var (name, i3) := GetWord(i2);
    var (attrs, _) := GetWord(i3);
    if cmd != "ARRIVE" || typeName == "" || name == "" then BadFormat
    else if typeName !in known then UnknownType(typeName)
    else Arrived(typeName, name, if attrs == "-" then born else ParseAttributes(born, attrs))
  }

  const SPACES: set<char> := {' ', '\t', '\n', '\U{0B}', '\U{0C}', '\r'}

  /** Attributes that survive the journey. */
  predicate Portable(m: Attributes) {
    Separable(m) && forall k :: k in m ==> Without(k, SPACES) && Without(m[k], SPACES)
  }

  lemma WordWithout(w: string)
    ensures Without(w, SPACES) <==> forall c :: c in w ==> !IsSpace(c)
  {
  }

  lemma WithoutConcat(a: string, b: string, bad: set<char>)
    requires Without(a, bad) && Without(b, bad)
    ensures Without(a + b, bad)
  {
  }

  lemma {:induction false} TextWithout(m: Attributes, order: seq<string>)
    requires forall k :: k in order ==> k in m && Without(k, SPACES) && Without(m[k], SPACES)
    ensures Without(AttributesText(m, order), SPACES)
  {
    if order != [] {
      assert Without(":", SPACES) && Without(";", SPACES);
      hide Without;
      var k := order[0];
      assert k in order;
      var rest := AttributesText(m, order[1..]);
      TextWithout(m, order[1..]);
      WithoutConcat(";", rest, SPACES);
      WithoutConcat(m[k], ";" + rest, SPACES);
      WithoutConcat(":", m[k] + (";" + rest), SPACES);
      WithoutConcat(k, ":" + (m[k] + (";" + rest)), SPACES);
    }
  }

  /** The carried text is one word, and "-" only for the empty map. */
  lemma CarriedWord(m: Attributes, order: seq<string>)
    requires Enumerates(order, m) && Portable(m)
    ensures IsWord(Carried(m, order))
    ensures Carried(m, order) == "-" <==> m == map[]
  {
    if m != map[] {
      TextWithout(m, order);
      WordWithout(AttributesText(m, order));
      assert order != [] by { assert |order| == |m|; NotEmpty(m); }
      var rest := m[order[0]] + (";" + AttributesText(m, order[1..]));
      assert AttributesText(m, order)[|order[0]|] == ':';
    }
  }

  lemma NotEmpty(m: Attributes)
    requires m != map[]
    ensures |m| > 0
  {
    var k :| k in m;
    assert k in m.Keys;
  }

  lemma ArriveIsWord()
    ensures IsWord("ARRIVE")
  {
  }

  lemma NotStripped(typeName: string, name: string, attrs: string)
    requires IsWord(attrs)
    ensures Stripped(ArriveText(typeName, name, attrs)) == ArriveText(typeName, name, attrs)
  {
    var line := ArriveText(typeName, name, attrs);
    assert line[|line| - 1] == attrs[|attrs| - 1] && attrs[|attrs| - 1] in attrs;
  }

  lemma ArriveWords(typeName: string, name: string, attrs: string)
    requires IsWord(typeName) && IsWord(name) && IsWord(attrs)
    ensures var line := ArriveText(typeName, name, attrs);
      && Stripped(line) == line
      && var (cmd, i1) := GetWord(Input(line, true));
         var (t, i2) := GetWord(i1);
         var (n, i3) := GetWord(i2);
         cmd == "ARRIVE" && t == typeName && n == name && GetWord(i3).0 == attrs
  {
    ArriveIsWord();
    NotStripped(typeName, name, attrs);
    hide GetWord, IsWord, EndsHere, Stripped;
    var t3 := " " + attrs;
    var t2 := " " + name + t3;
    var t1 := " " + typeName + t2;
    Space(attrs);
    Space(name + t3);
    Space(typeName + t2);
    assert t2 == " " + (name + t3) && t1 == " " + (typeName + t2) && t3 == " " + attrs + "";
    GetWordBack("ARRIVE", t1);
    GetWordBack(typeName, t2);
    GetWordBack(name, t3);
    GetWordBack(attrs, "");
  }

  lemma {:induction false} WordAtWithout(t: string)
    ensures Without(WordAt(t), SPACES)
  {
    if t != "" && !IsSpace(t[0]) {
      WordAtWithout(t[1..]);
      WordWithout([t[0]]);
      WithoutConcat([t[0]], WordAt(t[1..]), SPACES);
    }
  }

  lemma GetWordWithout(i: Input)
    ensures Without(GetWord(i).0, SPACES)
  {
    if i.good {
      WordAtWithout(SkipSpaces(i.text));
    }
  }

  /** The whole line that is sent. */
  ghost function ArriveLine(typeName: string, name: string, m: Attributes, order: seq<string>): string
    requires Enumerates(order, m)
  {
    ArriveText(typeName, name, Carried(m, order)) + "\n"
  }

  lemma ArriveIsOneLine(typeName: string, name: string, attrs: string)
    requires IsWord(typeName) && IsWord(name) && IsWord(attrs)
    ensures NoNewline(ArriveText(typeName, name, attrs))
  {
    ArriveIsWord();
    WordHasNoNewline("ARRIVE");
    WordHasNoNewline(typeName);
    WordHasNoNewline(name);
    WordHasNoNewline(attrs);
    SpaceHasNoNewline();
    hide NoNewline, IsWord;
    NoNewlineConcat(" ", attrs);
    NoNewlineConcat(name, " " + attrs);
    NoNewlineConcat(" ", name);
    NoNewlineConcat(" " + name, " " + attrs);
    NoNewlineConcat(" ", typeName);
    NoNewlineConcat(" " + typeName, " " + name + (" " + attrs));
    NoNewlineConcat("ARRIVE", " " + typeName + (" " + name + (" " + attrs)));
  }

  /** An agent that travels arrives with its type, its name and its attributes, if and
      only if the attributes are portable; one without attributes travels too. */
  lemma MigrationRoundTrip(typeName: string, name: string, m: Attributes, order: seq<string>, known: set<string>)
    requires IsWord(typeName) && IsWord(name) && typeName in known && Enumerates(order, m)
    ensures ReadArrival(Piece(ArriveLine(typeName, name, m, order), '\n'), known, map[]) == Arrived(typeName, name, m)
      <==> Portable(m)
  {
    hide Portable, ReadArrival, IsWord, ArriveText, Carried, Piece;
    var line := Piece(ArriveLine(typeName, name, m, order), '\n');
    if Portable(m) {
      CarriedBack(m, order);
      ArriveIsOneLine(typeName, name, Carried(m, order));
      PieceBack(ArriveText(typeName, name, Carried(m, order)), '\n', "");
      assert ArriveLine(typeName, name, m, order) == ArriveText(typeName, name, Carried(m, order)) + ['\n'] + "";
      PortableArrives(typeName, name, m, order, known);
    } else if ReadArrival(line, known, map[]) == Arrived(typeName, name, m) {
      ArrivedIsPortable(line, known, typeName, name, m);
    }
  }

  lemma PortableArrives(typeName: string, name: string, m: Attributes, order: seq<string>, known: set<string>)
    requires IsWord(typeName) && IsWord(name) && typeName in known && Enumerates(order, m) && Portable(m)
    ensures ReadArrival(ArriveText(typeName, name, Carried(m, order)), known, map[]) == Arrived(typeName, name, m)
  {
    assert typeName != "" && name != "";
    hide GetWord, ParseAttributes, IsWord, ArriveText, Stripped, Portable, Carried, Enumerates;
    CarriedBack(m, order);
    ArriveWords(typeName, name, Carried(m, order));
  }

  lemma CarriedBack(m: Attributes, order: seq<string>)
    requires Enumerates(order, m) && Portable(m)
    ensures IsWord(Carried(m, order))
    ensures (if Carried(m, order) == "-" then map[] else ParseAttributes(map[], Carried(m, order))) == m
  {
    CarriedWord(m, order);
    hide ParseAttributes, IsWord, Without, CleanKey, AttributesText, Chosen;
    if m != map[] {
      AttributesBack(map[], m, order);
      ChosenAll(m, order);
    }
  }

  lemma ArrivedIsPortable(line: string, known: set<string>, typeName: string, name: string, m: Attributes)
    requires ReadArrival(line, known, map[]) == Arrived(typeName, name, m)
    ensures Portable(m)
  {
    hide GetWord, ParseAttributes, IsWord, Stripped, CleanKey, Without;
    var i1 := GetWord(Input(Stripped(line), true)).1;
    var i3 := GetWord(GetWord(i1).1).1;
    GetWordWithout(i3);
    ParsedIsSeparable(map[], GetWord(i3).0, SPACES);
  }

  // ----- any line and any text at all -----

  lemma SpacesStripped(t: string)
    requires Holds(t, [])
    ensures Holds(Stripped(t), [])
  {
  }

  lemma {:induction false} StrippedHolds(t: string, ws: seq<string>)
    requires Holds(t, ws)
    ensures Holds(Stripped(t), ws)
    decreases |ws|
  {
    hide Holds, IsWord;
    if ws == [] {
      SpacesStripped(t);
    } else if Stripped(t) != t {
      var gap, rest := Opened(t, ws);
      WordEnds(gap, ws[0]);
      assert t == gap + ws[0] + rest;
      assert rest != "" && t[|t| - 1] == rest[|rest| - 1];
      StrippedHolds(rest, ws[1..]);
      Closed(gap, ws, Stripped(rest));
      assert Stripped(t) == gap + (ws[0] + Stripped(rest));
    }
  }

  lemma WordEnds(gap: string, w: string)
    requires IsWord(w)
    ensures var t := gap + w; t != "" && t[|t| - 1] != '\r'
    ensures gap + w + "" == gap + w
  {
    assert w[|w| - 1] in w;
  }

  /** The pieces between semicolons. */
  function Pieces(text: string): seq<string>
    decreases |text|
  {
    if text == "" then [] else [Piece(text, ';')] + Pieces(After(text, ';'))
  }

  /** What the last of the pieces that assigns to k assigns to it. */
  function Assigned(ps: seq<string>, k: string): Option<string> {
    if ps == [] then None
    else
      var p := ps[|ps| - 1];
      if ':' in p && Piece(p, ':') == k then Some(After(p, ':')) else Assigned(ps[..|ps| - 1], k)
  }

  function Valued(m: Attributes, k: string): Option<string> {
    if k in m then Some(m[k]) else None
  }

  lemma {:induction false} AssignedFirst(p: string, ps: seq<string>, k: string)
    ensures Assigned([p] + ps, k) ==
      if Assigned(ps, k).Some? then Assigned(ps, k)
      else if ':' in p && Piece(p, ':') == k then Some(After(p, ':')) else None
  {
    if ps == [] {
      assert [p] + ps == [p] && [p][..0] == [];
    } else {
      assert ([p] + ps)[..|ps|] == [p] + ps[..|ps| - 1];
      AssignedFirst(p, ps[..|ps| - 1], k);
    }
  }

  /** Whatever the text is, an attribute gets the value of the last piece that assigns to
      it, and keeps its own if there is none; pieces without a colon assign nothing. */
  lemma {:induction false} LastAssignmentWins(m: Attributes, text: string, k: string)
    ensures Valued(ParseAttributes(m, text), k) ==
      if Assigned(Pieces(text), k).Some? then Assigned(Pieces(text), k) else Valued(m, k)
    decreases |text|
  {
    if text != "" {
      hide Piece, After, Assigned;
      ParseStep(m, text);
      LastAssignmentWins(Put(m, Piece(text, ';')), After(text, ';'), k);
      AssignedFirst(Piece(text, ';'), Pieces(After(text, ';')), k);
    } else {
      NothingAssigned(k);
    }
  }

  lemma NothingAssigned(k: string)
    ensures Assigned([], k) == None
  {
  }

  /** What the server makes of a line, by its words: fewer than three, or another first
      word than ARRIVE, is a bad format; an unknown second word an unknown type; otherwise
      the agent of that type and of the name in the third word is made, with the attributes
      it is born with, over which those in the fourth word are put, if there is one and it
      is not "-". */
  lemma ArrivalExact(line: string, ws: seq<string>, known: set<string>, born: Attributes)
    requires Holds(line, ws)
    ensures ReadArrival(line, known, born) ==
      if |ws| < 3 || ws[0] != "ARRIVE" then BadFormat
      else if ws[1] !in known then UnknownType(ws[1])
      else Arrived(ws[1], ws[2], if |ws| == 3 || ws[3] == "-" then born else ParseAttributes(born, ws[3]))
  {
    hide GetWord, ParseAttributes, Stripped;
    StrippedHolds(line, ws);
    WordTaken(Stripped(line), ws);
    var i1 := GetWord(Input(Stripped(line), true)).1;
    BadReads(i1);
    if ws != [] {
      WordTaken(i1.text, ws[1..]);
      WordHolds(line, ws);
      var i2 := GetWord(i1).1;
      BadReads(i2);
      if |ws| > 1 {
        WordTaken(i2.text, ws[2..]);
        assert ws[1..][1..] == ws[2..];
        WordHolds(i1.text, ws[1..]);
        var i3 := GetWord(i2).1;
        BadReads(i3);
        if |ws| > 2 {
          assert ws[2..][1..] == ws[3..];
          WordTaken(i3.text, ws[3..]);
          WordHolds(i2.text, ws[2..]);
          NothingToParse(born);
        }
      }
    }
  }

  /** An agent with portable attributes that travels to any server: where its type is
      known it arrives with its name, its attributes over those that an agent of the type
      is born with; where it is not, the server says so. */
  lemma MigrationArrives(typeName: string, name: string, m: Attributes, order: seq<string>, known: set<string>, born: Attributes)
    requires IsWord(typeName) && IsWord(name) && Enumerates(order, m) && Portable(m)
    ensures ReadArrival(Piece(ArriveLine(typeName, name, m, order), '\n'), known, born)
      == if typeName in known then Arrived(typeName, name, born + m) else UnknownType(typeName)
  {
    hide Portable, IsWord, ArriveText, Carried, Piece, GetWord, ParseAttributes, Stripped, Enumerates;
    assert typeName != "" && name != "" by { WordsAreNotEmpty(typeName, name); }
    CarriedOver(m, order, born);
    ArriveIsOneLine(typeName, name, Carried(m, order));
    PieceBack(ArriveText(typeName, name, Carried(m, order)), '\n', "");
    assert ArriveLine(typeName, name, m, order) == ArriveText(typeName, name, Carried(m, order)) + ['\n'] + "";
    ArriveWords(typeName, name, Carried(m, order));
  }

  lemma WordsAreNotEmpty(a: string, b: string)
    requires IsWord(a) && IsWord(b)
    ensures a != "" && b != ""
  {
  }

  lemma CarriedOver(m: Attributes, order: seq<string>, born: Attributes)
    requires Enumerates(order, m) && Portable(m)
    ensures IsWord(Carried(m, order))
    ensures (if Carried(m, order) == "-" then born else ParseAttributes(born, Carried(m, order))) == born + m
  {
    CarriedWord(m, order);
    hide ParseAttributes, IsWord, Without, CleanKey, AttributesText, Chosen;
    if m == map[] {
      assert born + m == born;
    } else {
      AttributesBack(born, m, order);
      ChosenIsAll(m, order);
    }
  }

  lemma ChosenIsAll(m: Attributes, order: seq<string>)
    requires Enumerates(order, m)
    ensures Chosen(m, order) == m
  {
  }

  // ----- the classes -----

  class Agent {
    const id: string
    var typeName: string
    var name: string
    var attributs: Attributes

    constructor (id: string, typeName: string, born: Attributes)
      ensures this.id == id && this.typeName == typeName && name == "" && attributs == born
    {
      this.id, this.typeName, name, attributs := id, typeName, "", born;
    }

    method SetAgentName(name: string)
      modifies this
      ensures this.name == name && typeName == old(typeName) && attributs == old(attributs)
    {
      this.name := name;
    }

    /** insert: an attribute that is there already keeps its value. */
    method AddAttribut(attr: string)
      modifies this
      ensures attributs == if attr in old(attributs) then old(attributs) else old(attributs)[attr := ""]
      ensures typeName == old(typeName) && name == old(name)
    {
      if attr !in attributs {
        attributs := attributs[attr := ""];
      }
    }

    method RemoveAttribut(attr: string)
      modifies this
      ensures attributs == old(attributs) - {attr} && typeName == old(typeName) && name == old(name)
    {
      attributs := attributs - {attr};
    }

    /** An attribute that is not there is not set. */
    method SetAttribut(attr: string, val: string)
      modifies this
      ensures attributs == if attr in old(attributs) then old(attributs)[attr := val] else old(attributs)
      ensures typeName == old(typeName) && name == old(name)
    {
      if attr in attributs {
        attributs := attributs[attr := val];
      }
    }

    method GetAttribut(attr: string) returns (val: string)
      ensures val == if attr in attributs then attributs[attr] else ""
    {
      if attr !in attributs {
        return "";
      }
      return attributs[attr];
    }

    /** The text of attributUpdated, and of a migration. */
    method Serialise() returns (text: string)
      ensures exists order :: Enumerates(order, attributs) && text == AttributesText(attributs, order)
    {
      ghost var order: seq<string> := [];
      text := "";
      var left := attributs.Keys;
      while left != {}
        invariant left <= attributs.Keys && |order| + |left| == |attributs|
        invariant forall k :: k in attributs <==> k in left || k in order
        invariant text == AttributesText(attributs, order)
        decreases |left|
      {
        var k :| k in left;
        AttributesTextAppend(attributs, order, k);
        text := text + (k + (":" + (attributs[k] + ";")));
        left := left - {k};
        order := order + [k];
      }
    }

    /** The line sent when the agent moves; an agent of no type stays where it is. */
    method Depart() returns (line: Option<string>)
      ensures typeName == "" ==> line == None
      ensures typeName != "" ==>
        exists order :: Enumerates(order, attributs) && line == Some(ArriveLine(typeName, if name == "" then id else name, attributs, order))
    {
      var attrs := Serialise();
      ghost var order :| Enumerates(order, attributs) && attrs == AttributesText(attributs, order);
      EmptyText(attributs, order);
      if attrs == "" {
        attrs := "-";
      }
      var agName := name;
      if agName == "" {
        agName := id;
      }
      if typeName == "" {
        return None;
      }
      line := Some("ARRIVE" + (" " + typeName + (" " + agName + (" " + attrs))) + "\n");
      assert line == Some(ArriveLine(typeName, if name == "" then id else name, attributs, order));
    }
  }

  lemma AttributesTextAppend(m: Attributes, order: seq<string>, k: string)
    requires k in m && forall j :: j in order ==> j in m
    ensures forall j :: j in order + [k] ==> j in m
    ensures AttributesText(m, order + [k]) == AttributesText(m, order) + (k + (":" + (m[k] + ";")))
  {
    if order == [] {
      assert order + [k] == [k] && [k][1..] == [];
      assert m[k] + (";" + "") == m[k] + ";";
    } else {
      assert (order + [k])[1..] == order[1..] + [k];
      AttributesTextAppend(m, order[1..], k);
      var j, tail := order[0], AttributesText(m, order[1..]);
      var last := k + (":" + (m[k] + ";"));
      assert j + (":" + (m[j] + (";" + (tail + last)))) == j + (":" + (m[j] + (";" + tail))) + last;
    }
  }

  lemma EmptyText(m: Attributes, order: seq<string>)
    requires Enumerates(order, m)
    ensures AttributesText(m, order) == "" <==> m == map[]
  {
    if m != map[] {
      NotEmpty(m);
    }
  }

  /** handle_migration: the agent that arrives, if any, and the answer on the socket. */
  method HandleMigration(s: Socket, known: set<string>, id: string, born: Attributes) returns (reply: string, agent: Agent?)
    modifies s
    ensures var arrival := ReadArrival(Piece(old(s.rest), '\n'), known, born);
      match arrival
      case BadFormat => agent == null && reply == "ERR bad format\n"
      case UnknownType(t) => agent == null && reply == "ERR unknown type " + t + "\n"
      case Arrived(t, n, attributes) =>
        agent != null && fresh(agent) && reply == "OK\n"
        && agent.typeName == t && agent.name == n && agent.attributs == attributes
  {
    hide GetWord, ParseAttributes, Piece, After;
    var line := ReadlineFd(s);
    if line != "" && line[|line| - 1] == '\r' {
      line := line[..|line| - 1];
    }
    var (cmd, i1) := GetWord(Input(line, true));
    var (typeName, i2) := GetWord(i1);
    var (name, i3) := GetWord(i2);
    var (attrs, _) := GetWord(i3);
    if cmd != "ARRIVE" || typeName == "" || name == "" {
      return "ERR bad format\n", null;
    }
    if typeName !in known {
      return "ERR unknown type " + typeName + "\n", null;
    }
    agent := new Agent(id, typeName, born);
    agent.SetAgentName(name);
    if attrs != "-" {
      Restore(agent, attrs);
    }
    reply := "OK\n";
  }

  lemma ParseStep(m: Attributes, text: string)
    requires text != ""
    ensures ParseAttributes(m, text) == ParseAttributes(Put(m, Piece(text, ';')), After(text, ';'))
    ensures |After(text, ';')| < |text|
  {
  }

  method Restore(agent: Agent, attrs: string)
    modifies agent
    ensures agent.attributs == ParseAttributes(old(agent.attributs), attrs)
    ensures agent.typeName == old(agent.typeName) && agent.name == old(agent.name)
  {
    NothingToParse(agent.attributs);
    hide ParseAttributes, Piece, After, Put;
    var rest := attrs;
    while rest != ""
      invariant ParseAttributes(old(agent.attributs), attrs) == ParseAttributes(agent.attributs, rest)
      invariant agent.typeName == old(agent.typeName) && agent.name == old(agent.name)
      decreases |rest|
    {
      ParseStep(agent.attributs, rest);
      var token := Piece(rest, ';');
      rest := After(rest, ';');
      RestoreOne(agent, token);
    }
    NothingToParse(agent.attributs);
  }

  method RestoreOne(agent: Agent, token: string)
    modifies agent
    ensures agent.attributs == Put(old(agent.attributs), token)
    ensures agent.typeName == old(agent.typeName) && agent.name == old(agent.name)
  {
    if ':' !in token {
      return;
    }
    var k, v := Piece(token, ':'), After(token, ':');
    agent.AddAttribut(k);
    agent.SetAttribut(k, v);
  }
}
