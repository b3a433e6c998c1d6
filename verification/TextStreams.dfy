/** Reading from and writing to text as the C++ standard streams do: words, decimal
    integers of type int, and lines. */
module TextStreams {
  import opened Options

  predicate IsSpace(c: char) {
    c == ' ' || c == '\t' || c == '\n' || c == '\U{0B}' || c == '\U{0C}' || c == '\r'
  }

  predicate IsDigit(c: char) {
    '0' <= c <= '9'
  }

  function SkipSpaces(t: string): string {
    if t != "" && IsSpace(t[0]) then SkipSpaces(t[1..]) else t
  }

  /** The longest prefix without a space, and the longest prefix of digits. */
  function WordAt(t: string): (w: string)
    ensures |w| <= |t| && t[..|w|] == w
  {
    if t == "" || IsSpace(t[0]) then "" else [t[0]] + WordAt(t[1..])
  }

  function DigitsAt(t: string): (w: string)
    ensures |w| <= |t| && t[..|w|] == w
    ensures forall c :: c in w ==> IsDigit(c)
  {
    if t == "" || !IsDigit(t[0]) then "" else [t[0]] + DigitsAt(t[1..])
  }

  predicate IsWord(w: string) {
    w != "" && forall c :: c in w ==> !IsSpace(c)
  }

  // ----- decimal integers -----

  predicate IsInt(n: int) {
    -0x8000_0000 <= n < 0x8000_0000
  }

  function Digits(n: nat): (s: string)
    ensures s != "" && forall c :: c in s ==> IsDigit(c)
  {
    if n < 10 then ['0' + n as char] else Digits(n / 10) + ['0' + (n % 10) as char]
  }

  /** std::to_string of an int. */
  function ToString(n: int): string {
    if n < 0 then "-" + Digits(-n) else Digits(n)
  }

  function ValueOf(digits: string): (v: int)
    requires forall c :: c in digits ==> IsDigit(c)
    ensures v >= 0
  {
    if digits == "" then 0
    else
      var last := digits[|digits| - 1];
      assert IsDigit(last);
      10 * ValueOf(digits[..|digits| - 1]) + (last as int - '0' as int)
  }

  lemma {:induction false} ValueOfDigits(n: nat)
    ensures ValueOf(Digits(n)) == n
  {
    if n < 10 {
      assert Digits(n)[..0] == "";
    } else {
      ValueOfDigits(n / 10);
      var s := Digits(n);
      assert s[..|s| - 1] == Digits(n / 10);
    }
  }

  // ----- input -----

  /** An input stream: what is left of it, and whether every read so far succeeded. */
  datatype Input = Input(text: string, good: bool)

  /** stream >> word: a failed read leaves the empty string it was given. */
  function GetWord(i: Input): (string, Input) {
    if !i.good then ("", i)
    else
      var t := SkipSpaces(i.text);
      var w := WordAt(t);
      (w, Input(t[|w|..], w != ""))
  }

  /** An optional sign and digits: the value, if there are digits, and the length. */
  function NumberAt(t: string): (r: (Option<int>, nat))
    ensures r.1 <= |t|
  {
    var signed := t != "" && (t[0] == '-' || t[0] == '+');
    var digits := DigitsAt(if signed then t[1..] else t);
    if digits == "" then (None, 0)
    else (Some(if signed && t[0] == '-' then -ValueOf(digits) else ValueOf(digits)), |digits| + if signed then 1 else 0)
  }

  /** stream >> number: nothing to read leaves what was there, no digits give 0, and a
      number out of range gives the nearest int; all three fail. */
  function GetInt(i: Input, before: int): (int, Input) {
    if !i.good then (before, i)
    else
      var t := SkipSpaces(i.text);
      var number := NumberAt(t).0;
      if t == "" then (before, Input(t, false))
      else if number.None? then (0, Input(t, false))
      else if !IsInt(number.value) then (if number.value < 0 then -0x8000_0000 else 0x7FFF_FFFF, Input(t, false))
      else (number.value, Input(t[NumberAt(t).1..], true))
  }

  /** std::stoi, which throws if there is no number or it does not fit. */
  function Stoi(t: string): Option<int> {
    var number := NumberAt(SkipSpaces(t)).0;
    if number.Some? && IsInt(number.value) then number else None
  }

  // ----- reading back what was written -----

  predicate EndsHere(rest: string) {
    rest == "" || IsSpace(rest[0])
  }

  lemma WordAtWord(w: string, rest: string)
    requires (forall c :: c in w ==> !IsSpace(c)) && EndsHere(rest)
    ensures WordAt(w + rest) == w
  {
    if w == "" {
      assert w + rest == rest;
    } else {
      assert (w + rest)[1..] == w[1..] + rest;
      WordAtWord(w[1..], rest);
    }
  }

  lemma GetWordBack(w: string, rest: string)
    requires IsWord(w) && EndsHere(rest)
    ensures GetWord(Input(w + rest, true)) == (w, Input(rest, true))
    ensures GetWord(Input(" " + w + rest, true)) == (w, Input(rest, true))
  {
    WordAtWord(w, rest);
    assert !IsSpace((w + rest)[0]);
    assert (w + rest)[|w|..] == rest;
    assert (" " + w + rest)[1..] == w + rest;
  }

  lemma DigitsAtDigits(w: string, rest: string)
    requires (forall c :: c in w ==> IsDigit(c)) && EndsHere(rest)
    ensures DigitsAt(w + rest) == w
  {
    if w == "" {
      assert w + rest == rest;
    } else {
      assert (w + rest)[1..] == w[1..] + rest;
      DigitsAtDigits(w[1..], rest);
    }
  }

  lemma DigitsBack(n: nat, rest: string)
    requires EndsHere(rest)
    ensures DigitsAt(Digits(n) + rest) == Digits(n) && ValueOf(Digits(n)) == n && IsDigit(Digits(n)[0])
  {
    ValueOfDigits(n);
    DigitsAtDigits(Digits(n), rest);
    assert Digits(n)[0] in Digits(n);
  }

  lemma NumberBack(n: int, rest: string)
    requires EndsHere(rest)
    ensures NumberAt(ToString(n) + rest) == (Some(n), |ToString(n)|)
    ensures ToString(n) != "" && !IsSpace(ToString(n)[0])
  {
    hide NumberAt;
    if n < 0 {
      NegativeBack(-n, rest);
    } else {
      PositiveBack(n, rest);
    }
  }

  lemma NegativeBack(n: nat, rest: string)
    requires EndsHere(rest)
    ensures NumberAt("-" + Digits(n) + rest) == (Some(0 - n), 1 + |Digits(n)|)
  {
    hide Digits, DigitsAt, ValueOf;
    DigitsBack(n, rest);
    assert ("-" + Digits(n) + rest)[1..] == Digits(n) + rest;
  }

  lemma PositiveBack(n: nat, rest: string)
    requires EndsHere(rest)
    ensures NumberAt(Digits(n) + rest) == (Some(n), |Digits(n)|) && !IsSpace(Digits(n)[0])
  {
    hide Digits, DigitsAt, ValueOf;
    DigitsBack(n, rest);
    assert (Digits(n) + rest)[0] == Digits(n)[0];
  }

  lemma GetIntBack(n: int, rest: string, before: int)
    requires IsInt(n) && EndsHere(rest)
    ensures GetInt(Input(ToString(n) + rest, true), before) == (n, Input(rest, true))
    ensures GetInt(Input(" " + ToString(n) + rest, true), before) == (n, Input(rest, true))
  {
    hide ToString, NumberAt;
    NumberBack(n, rest);
    var s := ToString(n);
    assert !IsSpace((s + rest)[0]);
    assert (s + rest)[|s|..] == rest;
    assert (" " + s + rest)[1..] == s + rest;
  }

  lemma StoiBack(n: int, rest: string)
    requires IsInt(n) && EndsHere(rest)
    ensures Stoi(ToString(n) + rest) == Some(n)
  {
    hide ToString, NumberAt;
    NumberBack(n, rest);
    assert !IsSpace((ToString(n) + rest)[0]);
  }

  /** A decimal integer is a word. */
  lemma NumberIsWord(n: int)
    ensures IsWord(ToString(n))
  {
    var d := Digits(if n < 0 then -n else n);
    forall c | c in ToString(n) ensures !IsSpace(c) {
      assert c == '-' || c in d;
    }
  }

  // ----- any text at all, by its words -----

  /** The line consists of these words, with spaces between, before and behind them. */
  ghost predicate Holds(t: string, ws: seq<string>)
    decreases |ws|
  {
    if ws == [] then forall c :: c in t ==> IsSpace(c)
    else
      exists gap, rest ::
        && t == gap + (ws[0] + rest) && (forall c :: c in gap ==> IsSpace(c))
        && IsWord(ws[0]) && EndsHere(rest) && Holds(rest, ws[1..])
  }

  lemma SkipGap(gap: string, t: string)
    requires (forall c :: c in gap ==> IsSpace(c)) && (t == "" || !IsSpace(t[0]))
    ensures SkipSpaces(gap + t) == t
  {
    if gap == "" {
      assert gap + t == t;
    } else {
      assert (gap + t)[0] == gap[0] && gap[0] in gap && (gap + t)[1..] == gap[1..] + t;
      SkipGap(gap[1..], t);
    }
  }

  /** Reading takes one word after the other, and fails when there are none left. */
  lemma WordTaken(t: string, ws: seq<string>)
    requires Holds(t, ws)
    ensures var (w, i) := GetWord(Input(t, true));
      if ws == [] then w == "" && !i.good else w == ws[0] && i.good && Holds(i.text, ws[1..])
  {
    if ws == [] {
      SkipGap(t, "");
      assert t + "" == t;
    } else {
      var gap, rest := Opened(t, ws);
      assert ws[0][0] in ws[0];
      SkipGap(gap, ws[0] + rest);
      WordAtWord(ws[0], rest);
      assert (ws[0] + rest)[|ws[0]|..] == rest;
    }
  }

  lemma Opened(t: string, ws: seq<string>) returns (gap: string, rest: string)
    requires Holds(t, ws) && ws != []
    ensures t == gap + (ws[0] + rest) && (forall c :: c in gap ==> IsSpace(c))
    ensures IsWord(ws[0]) && EndsHere(rest) && Holds(rest, ws[1..])
  {
    gap, rest :|
      && t == gap + (ws[0] + rest) && (forall c :: c in gap ==> IsSpace(c))
      && IsWord(ws[0]) && EndsHere(rest) && Holds(rest, ws[1..]);
  }

  lemma Closed(gap: string, ws: seq<string>, rest: string)
    requires ws != [] && (forall c :: c in gap ==> IsSpace(c)) && IsWord(ws[0]) && EndsHere(rest) && Holds(rest, ws[1..])
    ensures Holds(gap + (ws[0] + rest), ws)
  {
  }

  lemma BadReads(i: Input)
    ensures !i.good ==> GetWord(i) == ("", i)
  {
  }

  lemma WordHolds(t: string, ws: seq<string>)
    requires Holds(t, ws) && ws != []
    ensures ws[0] != ""
  {
  }

  /** Every line consists of some words. */
  lemma {:induction false} SomeWords(t: string) returns (ws: seq<string>)
    ensures Holds(t, ws)
    decreases |t|
  {
    var u := SkipSpaces(t);
    var gap := GapOf(t);
    if u == "" {
      ws := [];
    } else {
      var w := WordAt(u);
      WordOf(u);
      var rest := u[|w|..];
      ws := SomeWords(rest);
      ws := [w] + ws;
      assert t == gap + (ws[0] + rest);
    }
  }

  lemma {:induction false} GapOf(t: string) returns (gap: string)
    ensures t == gap + SkipSpaces(t) && forall c :: c in gap ==> IsSpace(c)
    ensures SkipSpaces(t) != "" ==> !IsSpace(SkipSpaces(t)[0])
  {
    if t != "" && IsSpace(t[0]) {
      gap := GapOf(t[1..]);
      gap := [t[0]] + gap;
    } else {
      gap := "";
    }
  }

  lemma {:induction false} WordOf(u: string)
    ensures forall c :: c in WordAt(u) ==> !IsSpace(c)
    ensures EndsHere(u[|WordAt(u)|..])
  {
    if u != "" && !IsSpace(u[0]) {
      WordOf(u[1..]);
      assert u[|WordAt(u)|..] == u[1..][|WordAt(u[1..])|..];
    }
  }

  // ----- numbers that cannot be read -----

  function Clamped(n: int): int {
    if n < -0x8000_0000 then -0x8000_0000 else if n > 0x7FFF_FFFF then 0x7FFF_FFFF else n
  }

  lemma NumberStarts(n: int, rest: string)
    ensures SkipSpaces(ToString(n) + rest) == ToString(n) + rest && ToString(n) != ""
  {
    var t := ToString(n);
    assert t[0] in t;
    assert (t + rest)[0] == t[0];
  }

  /** Any printed number, of whatever size: an int is read, anything larger gives the
      nearest int and a failed read, and makes stoi throw. */
  lemma AnyNumber(n: int, rest: string, before: int)
    requires EndsHere(rest)
    ensures GetInt(Input(ToString(n) + rest, true), before).0 == Clamped(n)
    ensures GetInt(Input(ToString(n) + rest, true), before).1.good <==> IsInt(n)
    ensures Stoi(ToString(n) + rest) == if IsInt(n) then Some(n) else None
  {
    hide SkipSpaces, NumberAt;
    NumberStarts(n, rest);
    NumberBack(n, rest);
  }

  /** A word that does not begin with a number gives 0 and a failed read, and makes stoi
      throw; nothing at all leaves the value as it was, and fails too. */
  lemma NoNumber(t: string, before: int)
    requires t != "" && !IsSpace(t[0]) && !IsDigit(t[0])
    requires t[0] == '-' || t[0] == '+' ==> |t| == 1 || !IsDigit(t[1])
    ensures GetInt(Input(t, true), before).0 == 0 && !GetInt(Input(t, true), before).1.good && Stoi(t) == None
    ensures GetInt(Input("", true), before).0 == before && !GetInt(Input("", true), before).1.good && Stoi("") == None
  {
  }

  // ----- lines and pieces -----

  /** The text before the first separator, all of it if there is none. */
  function Piece(t: string, sep: char): (p: string)
    ensures |p| <= |t| && t[..|p|] == p && sep !in p
    ensures |p| < |t| ==> t[|p|] == sep
    ensures sep !in t <==> p == t
  {
    if t == "" || t[0] == sep then "" else [t[0]] + Piece(t[1..], sep)
  }

  /** What follows the first separator. */
  function After(t: string, sep: char): string {
    var p := Piece(t, sep);
    if |p| < |t| then t[|p| + 1..] else ""
  }

  lemma PieceBack(p: string, sep: char, rest: string)
    requires sep !in p
    ensures Piece(p + [sep] + rest, sep) == p && After(p + [sep] + rest, sep) == rest
  {
    if p != "" {
      assert (p + [sep] + rest)[1..] == p[1..] + [sep] + rest;
      PieceBack(p[1..], sep, rest);
    }
  }
}
