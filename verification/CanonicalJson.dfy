/** The canonical printing of JSON values, and why equal texts mean matching intents. Texts are sequences of UTF-16 code units. */
module CanonicalJson {

  import opened Common

  type CodeUnit = u: nat | u < 0x1_0000

  type Text = seq<CodeUnit>

  /** A number is its shortest decimal text, an object its members in insertion order under distinct keys. */
  datatype Json =
    | JNull
    | JBool(value: bool)
    | JNumber(text: Text)
    | JString(chars: Text)
    | JArray(items: seq<Json>)
    | JObject(members: seq<Member>)

  datatype Member = Member(key: Text, value: Json)

  const QUOTE: CodeUnit := 34
  const BACKSLASH: CodeUnit := 92
  const COMMA: CodeUnit := 44
  const COLON: CodeUnit := 58
  const OPEN_ARRAY: CodeUnit := 91
  const CLOSE_ARRAY: CodeUnit := 93
  const OPEN_OBJECT: CodeUnit := 123
  const CLOSE_OBJECT: CodeUnit := 125

  predicate NumberUnit(u: CodeUnit) {
    48 <= u <= 57 || u in {43, 45, 46, 69, 101}
  }

  predicate NumberText(t: Text) {
    t != [] && (48 <= t[0] <= 57 || t[0] == 45) && forall u | u in t :: NumberUnit(u)
  }

  predicate DistinctKeys(ms: seq<Member>) {
    forall i, j | 0 <= i < j < |ms| :: ms[i].key != ms[j].key
  }

  predicate Valid(v: Json) {
    match v
    case JNumber(text) => NumberText(text)
    case JArray(items) => forall i | 0 <= i < |items| :: Valid(items[i])
    case JObject(ms) => DistinctKeys(ms) && forall i | 0 <= i < |ms| :: Valid(ms[i].value)
    case JNull => true
    case JBool(_) => true
    case JString(_) => true
  }

  // ---------- strings ----------

  predicate High(u: CodeUnit) { 0xD800 <= u <= 0xDBFF }
  predicate Low(u: CodeUnit) { 0xDC00 <= u <= 0xDFFF }

  function HexDigit(d: nat): CodeUnit
    requires d < 16
  {
    if d < 10 then 48 + d else 97 + d - 10
  }

  function UnicodeEscape(u: CodeUnit): Text {
    [BACKSLASH, 117, HexDigit(u / 4096), HexDigit(u / 256 % 16), HexDigit(u / 16 % 16), HexDigit(u % 16)]
  }

  function EscapeUnit(u: CodeUnit): Text {
    if u == QUOTE || u == BACKSLASH then [BACKSLASH, u]
    else if u == 8 then [BACKSLASH, 98]
    else if u == 12 then [BACKSLASH, 102]
    else if u == 10 then [BACKSLASH, 110]
    else if u == 13 then [BACKSLASH, 114]
    else if u == 9 then [BACKSLASH, 116]
    else if u < 32 then UnicodeEscape(u)
    else [u]
  }

  /** `paired` says that the first unit is the second half of a surrogate pair. */
  function Escape(s: Text, paired: bool): Text {
    if s == [] then []
    else if paired then [s[0]] + Escape(s[1..], false)
    else if High(s[0]) && |s| > 1 && Low(s[1]) then [s[0]] + Escape(s[1..], true)
    else if High(s[0]) || Low(s[0]) then UnicodeEscape(s[0]) + Escape(s[1..], false)
    else EscapeUnit(s[0]) + Escape(s[1..], false)
  }

  function Quoted(s: Text): Text {
    [QUOTE] + Escape(s, false) + [QUOTE]
  }

  // ---------- reading strings back ----------

  function HexValue(u: CodeUnit): (d: Option<nat>)
    ensures d.Some? ==> d.value < 16
  {
    if 48 <= u <= 57 then Some(u - 48)
    else if 97 <= u <= 102 then Some(u - 97 + 10)
    else if 65 <= u <= 70 then Some(u - 65 + 10)
    else None
  }

  function ShortEscape(u: CodeUnit): Option<CodeUnit> {
    if u == QUOTE || u == BACKSLASH || u == 47 then Some(u)
    else if u == 98 then Some(8)
    else if u == 102 then Some(12)
    else if u == 110 then Some(10)
    else if u == 114 then Some(13)
    else if u == 116 then Some(9)
    else None
  }

  datatype Read = Read(chars: Text, rest: Text) | Malformed

  function Prepend(u: CodeUnit, r: Read): Read {
    if r.Read? then Read([u] + r.chars, r.rest) else r
  }

  /** The characters up to the closing quotation mark by the string grammar of RFC 8259, section 7. */
  function ReadString(t: Text): Read
    decreases |t|
  {
    if t == [] then Malformed
    else if t[0] == QUOTE then Read([], t[1..])
    else if t[0] < 32 then Malformed
    else if t[0] != BACKSLASH then Prepend(t[0], ReadString(t[1..]))
    else if |t| < 2 then Malformed
    else if t[1] != 117 then
      if ShortEscape(t[1]).None? then Malformed else Prepend(ShortEscape(t[1]).value, ReadString(t[2..]))
    else if |t| < 6 then Malformed
    else
      var a := HexValue(t[2]);
      var b := HexValue(t[3]);
      var c := HexValue(t[4]);
      var d := HexValue(t[5]);
      if a.None? || b.None? || c.None? || d.None? then Malformed
      else Prepend(a.value * 4096 + b.value * 256 + c.value * 16 + d.value, ReadString(t[6..]))
  }

  lemma HexRoundTrip(d: nat)
    requires d < 16
    ensures HexValue(HexDigit(d)) == Some(d)
  {
  }

  lemma HexDigits(u: CodeUnit)
    ensures u / 4096 < 16
    ensures u / 4096 * 4096 + u / 256 % 16 * 256 + u / 16 % 16 * 16 + u % 16 == u
  {
    var a := u / 16;
    var b := a / 16;
    assert u == 16 * a + u % 16 && a == 16 * b + a % 16;
    assert u == 256 * b + (16 * (a % 16) + u % 16) && 0 <= 16 * (a % 16) + u % 16 < 256;
    assert u / 256 == b;
    var c := b / 16;
    assert b == 16 * c + b % 16;
    assert u == 4096 * c + (256 * (b % 16) + 16 * (a % 16) + u % 16) && 0 <= 256 * (b % 16) + 16 * (a % 16) + u % 16 < 4096;
    assert u / 4096 == c;
  }

  lemma ReadUnicodeEscape(u: CodeUnit, rest: Text)
    ensures ReadString(UnicodeEscape(u) + rest) == Prepend(u, ReadString(rest))
  {
    hide HexValue, HexDigit;
    HexRoundTrip(u / 4096);
    HexRoundTrip(u / 256 % 16);
    HexRoundTrip(u / 16 % 16);
    HexRoundTrip(u % 16);
    HexDigits(u);
    assert (UnicodeEscape(u) + rest)[6..] == rest;
  }

  lemma ReadEscapeUnit(u: CodeUnit, rest: Text)
    requires !High(u) && !Low(u)
    ensures ReadString(EscapeUnit(u) + rest) == Prepend(u, ReadString(rest))
  {
    hide UnicodeEscape;
    if u < 32 && u !in {8, 9, 10, 12, 13} {
      ReadUnicodeEscape(u, rest);
    } else if |EscapeUnit(u)| == 2 {
      assert (EscapeUnit(u) + rest)[2..] == rest;
    } else {
      assert (EscapeUnit(u) + rest)[1..] == rest;
    }
  }

  lemma ReadLiteral(u: CodeUnit, rest: Text)
    requires u >= 32 && u != QUOTE && u != BACKSLASH
    ensures ReadString([u] + rest) == Prepend(u, ReadString(rest))
  {
    assert ([u] + rest)[1..] == rest;
  }

  /** Reading an escaped string back gives the string, whatever follows its closing mark. */
  lemma {:induction false} StringRoundTrip(s: Text, paired: bool, rest: Text)
    requires paired ==> s != [] && Low(s[0])
    ensures ReadString(Escape(s, paired) + [QUOTE] + rest) == Read(s, rest)
    decreases |s|
  {
    hide ReadString, UnicodeEscape, EscapeUnit;
    if s == [] {
      ReadEnd(rest);
      assert Escape(s, paired) + [QUOTE] + rest == [QUOTE] + rest;
    } else {
      var next := !paired && High(s[0]) && |s| > 1 && Low(s[1]);
      var tail := Escape(s[1..], next) + [QUOTE] + rest;
      StringRoundTrip(s[1..], next, rest);
      if paired || next {
        assert Escape(s, paired) + [QUOTE] + rest == [s[0]] + tail;
        ReadLiteral(s[0], tail);
      } else if High(s[0]) || Low(s[0]) {
        assert Escape(s, paired) + [QUOTE] + rest == UnicodeEscape(s[0]) + tail;
        ReadUnicodeEscape(s[0], tail);
      } else {
        assert Escape(s, paired) + [QUOTE] + rest == EscapeUnit(s[0]) + tail;
        ReadEscapeUnit(s[0], tail);
      }
      assert [s[0]] + s[1..] == s;
    }
  }

  lemma ReadEnd(rest: Text)
    ensures ReadString([QUOTE] + rest) == Read([], rest)
  {
    assert ([QUOTE] + rest)[1..] == rest;
  }

  /** A quoted string ends where it ends: equal texts with anything behind have equal strings in front. */
  lemma QuotedIsDelimited(s: Text, t: Text, x: Text, y: Text)
    requires Quoted(s) + x == Quoted(t) + y
    ensures s == t && x == y
  {
    hide Escape, ReadString;
    StringRoundTrip(s, false, x);
    StringRoundTrip(t, false, y);
    assert (Quoted(s) + x)[1..] == Escape(s, false) + [QUOTE] + x;
    assert (Quoted(t) + y)[1..] == Escape(t, false) + [QUOTE] + y;
  }

  // ---------- printing ----------

  datatype Entry = Entry(key: Text, text: Text)

  /** The order of code units, a proper prefix first. */
  predicate Before(a: Text, b: Text) {
    if b == [] then false
    else if a == [] then true
    else if a[0] != b[0] then a[0] < b[0]
    else Before(a[1..], b[1..])
  }

  function Insert(e: Entry, s: seq<Entry>): (r: seq<Entry>)
    ensures |r| == |s| + 1
  {
    if s == [] || Before(e.key, s[0].key) then [e] + s else [s[0]] + Insert(e, s[1..])
  }

  function SortEntries(s: seq<Entry>): (r: seq<Entry>)
    ensures |r| == |s|
  {
    if s == [] then [] else Insert(s[0], SortEntries(s[1..]))
  }

  function Join(parts: seq<Text>): Text {
    if parts == [] then []
    else if |parts| == 1 then parts[0]
    else parts[0] + [COMMA] + Join(parts[1..])
  }

  function EntryText(e: Entry): Text {
    Quoted(e.key) + [COLON] + e.text
  }

  function EntryTexts(s: seq<Entry>): (r: seq<Text>)
    ensures |r| == |s|
  {
    seq(|s|, i requires 0 <= i < |s| => EntryText(s[i]))
  }

  function Printed(v: Json): Text {
    match v
    case JNull => [110, 117, 108, 108]
    case JBool(b) => if b then [116, 114, 117, 101] else [102, 97, 108, 115, 101]
    case JNumber(text) => text
    case JString(chars) => Quoted(chars)
    case JArray(items) =>
      [OPEN_ARRAY] + Join(seq(|items|, i requires 0 <= i < |items| => Printed(items[i]))) + [CLOSE_ARRAY]
    case JObject(ms) =>
      [OPEN_OBJECT] + Join(EntryTexts(SortEntries(PrintedMembers(ms)))) + [CLOSE_OBJECT]
  }

  function PrintedMembers(ms: seq<Member>): (r: seq<Entry>)
    ensures |r| == |ms|
  {
    seq(|ms|, i requires 0 <= i < |ms| => Entry(ms[i].key, Printed(ms[i].value)))
  }

  // ---------- matching intents ----------

  function SortedKeys(ms: seq<Member>): seq<Text> {
    var sorted := SortEntries(seq(|ms|, i requires 0 <= i < |ms| => Entry(ms[i].key, [])));
    seq(|sorted|, i requires 0 <= i < |sorted| => sorted[i].key)
  }

  /** The index of the member with the key, or -1. */
  function Find(ms: seq<Member>, key: Text): (i: int)
    ensures -1 <= i < |ms| && (i >= 0 ==> ms[i].key == key)
    ensures i == -1 ==> forall m | m in ms :: m.key != key
  {
    if ms == [] then -1
    else if ms[0].key == key then 0
    else var rest := Find(ms[1..], key); if rest < 0 then -1 else rest + 1
  }

  predicate IntentsMatch(a: Json, b: Json) {
    if a.JArray? && b.JArray? then
      |a.items| == |b.items| && forall i | 0 <= i < |a.items| :: IntentsMatch(a.items[i], b.items[i])
    else if a.JObject? && b.JObject? then
      && SortedKeys(a.members) == SortedKeys(b.members)
      && forall i | 0 <= i < |a.members| ::
           var j := Find(b.members, a.members[i].key);
           j >= 0 && IntentsMatch(a.members[i].value, b.members[j].value)
    else !a.JArray? && !b.JArray? && !a.JObject? && !b.JObject? && a == b
  }

  // ---------- texts end where they end ----------

  predicate Ends(x: Text) {
    x == [] || x[0] in {COMMA, COLON, CLOSE_ARRAY, CLOSE_OBJECT}
  }

  /** Followed by a delimiter, two different texts cannot be confused. */
  ghost predicate Apart(s: Text, t: Text) {
    s != t ==> forall x, y | Ends(x) && Ends(y) :: s + x != t + y
  }

  lemma FirstUnits(s: Text, t: Text)
    requires s != [] && t != [] && s[0] != t[0]
    ensures Apart(s, t)
  {
    forall x, y | Ends(x) && Ends(y) ensures s + x != t + y {
      assert (s + x)[0] == s[0] && (t + y)[0] == t[0];
    }
  }

  lemma NumbersApart(s: Text, t: Text)
    requires NumberText(s) && NumberText(t)
    ensures Apart(s, t)
  {
    forall x, y | Ends(x) && Ends(y) && s != t ensures s + x != t + y {
      if |s| < |t| { NumberStops(s, t, x, y); }
      else if |t| < |s| { NumberStops(t, s, y, x); }
      else { assert s == (s + x)[..|s|] && t == (t + y)[..|s|]; }
    }
  }

  /** After a shorter text a delimiter stands where the longer number goes on. */
  lemma NumberStops(s: Text, t: Text, x: Text, y: Text)
    requires NumberText(t) && |s| < |t| && Ends(x)
    ensures s + x != t + y
  {
    assert (t + y)[|s|] == t[|s|];
    assert t[|s|] in t;
    if x != [] { assert (s + x)[|s|] == x[0]; }
  }

  lemma StringsApart(s: Text, t: Text)
    ensures Apart(Quoted(s), Quoted(t))
  {
    hide Quoted;
    forall x, y | Ends(x) && Ends(y) ensures Quoted(s) + x == Quoted(t) + y ==> s == t {
      if Quoted(s) + x == Quoted(t) + y { QuotedIsDelimited(s, t, x, y); }
    }
  }

  ghost predicate AllApart(a: seq<Text>, b: seq<Text>) {
    forall i, j | 0 <= i < |a| && 0 <= j < |b| :: Apart(a[i], b[j])
  }

  predicate Starts(parts: seq<Text>, close: CodeUnit) {
    forall i | 0 <= i < |parts| :: parts[i] != [] && parts[i][0] != close
  }

  /** Two lists of such texts that print alike are the same list. */
  lemma {:induction false} JoinsApart(a: seq<Text>, b: seq<Text>, close: CodeUnit, x: Text, y: Text)
    requires AllApart(a, b) && Starts(a, close) && Starts(b, close) && close in {CLOSE_ARRAY, CLOSE_OBJECT}
    requires Join(a) + [close] + x == Join(b) + [close] + y
    ensures a == b && x == y
  {
    if a == [] && b == [] {
      assert x == (Join(a) + [close] + x)[1..] && y == (Join(b) + [close] + y)[1..];
    } else if a == [] {
      NotEmpty(b, close, y, x);
    } else if b == [] {
      NotEmpty(a, close, x, y);
    } else {
      var u := Following(a, close, x);
      var v := Following(b, close, y);
      JoinSplits(a, close, x);
      JoinSplits(b, close, y);
      assert a[0] + u == b[0] + v;
      assert Apart(a[0], b[0]);
      assert u == (a[0] + u)[|a[0]|..] && v == (b[0] + v)[|b[0]|..];
      if |a| > 1 && |b| > 1 {
        assert u[1..] == Join(a[1..]) + [close] + x && v[1..] == Join(b[1..]) + [close] + y;
        JoinsApart(a[1..], b[1..], close, x, y);
        assert a == [a[0]] + a[1..] && b == [b[0]] + b[1..];
      } else {
        assert u[0] == v[0];
        assert |a| == 1 && |b| == 1;
        assert u[1..] == x && v[1..] == y;
        assert a == [a[0]] && b == [b[0]];
      }
    }
  }

  function Following(a: seq<Text>, close: CodeUnit, x: Text): (u: Text)
    requires a != [] && close in {CLOSE_ARRAY, CLOSE_OBJECT}
    ensures Ends(u) && u != [] && (u[0] == COMMA <==> |a| > 1)
  {
    if |a| == 1 then [close] + x else [COMMA] + (Join(a[1..]) + [close] + x)
  }

  lemma JoinSplits(a: seq<Text>, close: CodeUnit, x: Text)
    requires a != [] && close in {CLOSE_ARRAY, CLOSE_OBJECT}
    ensures Join(a) + [close] + x == a[0] + Following(a, close, x)
  {
  }

  lemma NotEmpty(a: seq<Text>, close: CodeUnit, x: Text, y: Text)
    requires a != [] && Starts(a, close) && close in {CLOSE_ARRAY, CLOSE_OBJECT}
    ensures Join(a) + [close] + x != Join([]) + [close] + y
  {
    JoinSplits(a, close, x);
    assert (a[0] + Following(a, close, x))[0] == a[0][0];
    assert (Join([]) + [close] + y)[0] == close;
  }

  /** A printed value begins with none of the delimiters. */
  lemma PrintedStarts(v: Json)
    requires Valid(v)
    ensures Printed(v) != [] && Printed(v)[0] !in {COMMA, COLON, CLOSE_ARRAY, CLOSE_OBJECT}
    ensures v.JArray? <==> Printed(v)[0] == OPEN_ARRAY
    ensures v.JObject? <==> Printed(v)[0] == OPEN_OBJECT
    ensures v.JString? <==> Printed(v)[0] == QUOTE
    ensures v.JNumber? <==> (48 <= Printed(v)[0] <= 57 || Printed(v)[0] == 45)
    ensures v.JNull? <==> Printed(v)[0] == 110
    ensures v == JBool(true) <==> Printed(v)[0] == 116
    ensures v == JBool(false) <==> Printed(v)[0] == 102
  {
    hide Join, EntryTexts, SortEntries, Escape, PrintedMembers;
  }

  lemma EntriesApart(e: Entry, f: Entry)
    requires Apart(e.text, f.text)
    ensures Apart(EntryText(e), EntryText(f))
  {
    hide EntryText;
    forall x, y | Ends(x) && Ends(y) && EntryText(e) + x == EntryText(f) + y ensures EntryText(e) == EntryText(f) {
      EntrySplits(e, f, x, y);
      TextParts(e, f);
    }
  }

  lemma EntrySplits(e: Entry, f: Entry, x: Text, y: Text)
    requires EntryText(e) + x == EntryText(f) + y
    ensures e.key == f.key && e.text + x == f.text + y
  {
    hide Quoted;
    assert EntryText(e) + x == Quoted(e.key) + ([COLON] + e.text + x);
    assert EntryText(f) + y == Quoted(f.key) + ([COLON] + f.text + y);
    QuotedIsDelimited(e.key, f.key, [COLON] + e.text + x, [COLON] + f.text + y);
    assert ([COLON] + e.text + x)[1..] == e.text + x && ([COLON] + f.text + y)[1..] == f.text + y;
  }

  lemma TextParts(e: Entry, f: Entry)
    requires e.key == f.key && e.text == f.text
    ensures EntryText(e) == EntryText(f)
  {
    hide Quoted;
  }

  lemma EntryTextsDiffer(e: Entry, f: Entry)
    ensures EntryText(e) == EntryText(f) ==> e == f
  {
    hide Quoted;
    if EntryText(e) == EntryText(f) {
      assert EntryText(e) == Quoted(e.key) + ([COLON] + e.text);
      assert EntryText(f) == Quoted(f.key) + ([COLON] + f.text);
      QuotedIsDelimited(e.key, f.key, [COLON] + e.text, [COLON] + f.text);
      assert ([COLON] + e.text)[1..] == e.text && ([COLON] + f.text)[1..] == f.text;
    }
  }

  lemma EntryStarts(e: Entry)
    ensures EntryText(e) != [] && EntryText(e)[0] == QUOTE
  {
    hide Escape;
  }

  // ---------- sorting ----------

  lemma {:induction false} InsertElements(e: Entry, s: seq<Entry>)
    ensures forall x :: x in Insert(e, s) <==> x == e || x in s
  {
    if s != [] && !Before(e.key, s[0].key) {
      InsertElements(e, s[1..]);
      forall x ensures x in s <==> x == s[0] || x in s[1..] {}
    }
  }

  lemma {:induction false} SortElements(s: seq<Entry>)
    ensures forall x :: x in SortEntries(s) <==> x in s
  {
    if s != [] {
      SortElements(s[1..]);
      InsertElements(s[0], SortEntries(s[1..]));
      forall x ensures x in s <==> x == s[0] || x in s[1..] {}
    }
  }

  function KeysOf(s: seq<Entry>): (r: seq<Text>)
    ensures |r| == |s|
  {
    seq(|s|, i requires 0 <= i < |s| => s[i].key)
  }

  lemma {:induction false} InsertKeys(e: Entry, f: Entry, s: seq<Entry>, t: seq<Entry>)
    requires e.key == f.key && KeysOf(s) == KeysOf(t)
    ensures KeysOf(Insert(e, s)) == KeysOf(Insert(f, t))
  {
    if s != [] {
      assert KeysOf(s)[0] == KeysOf(t)[0];
      if !Before(e.key, s[0].key) {
        forall i | 0 <= i < |s| - 1 ensures s[1..][i].key == t[1..][i].key {
          assert KeysOf(s)[i + 1] == KeysOf(t)[i + 1];
        }
        assert KeysOf(s[1..]) == KeysOf(t[1..]);
        InsertKeys(e, f, s[1..], t[1..]);
        ConsKeys(s[0], Insert(e, s[1..]));
        ConsKeys(t[0], Insert(f, t[1..]));
      } else {
        ConsKeys(e, s);
        ConsKeys(f, t);
      }
    }
  }

  lemma ConsKeys(e: Entry, s: seq<Entry>)
    ensures KeysOf([e] + s) == [e.key] + KeysOf(s)
  {
  }

  /** The sorted keys depend on the keys alone. */
  lemma {:induction false} SortedKeysAgree(s: seq<Entry>, t: seq<Entry>)
    requires KeysOf(s) == KeysOf(t)
    ensures KeysOf(SortEntries(s)) == KeysOf(SortEntries(t))
  {
    if s != [] {
      assert KeysOf(s)[0] == KeysOf(t)[0];
      forall i | 0 <= i < |s| - 1 ensures s[1..][i].key == t[1..][i].key {
        assert KeysOf(s)[i + 1] == KeysOf(t)[i + 1];
      }
      assert KeysOf(s[1..]) == KeysOf(t[1..]);
      SortedKeysAgree(s[1..], t[1..]);
      InsertKeys(s[0], t[0], SortEntries(s[1..]), SortEntries(t[1..]));
    }
  }

  lemma SortedKeysArePrinted(ms: seq<Member>)
    ensures SortedKeys(ms) == KeysOf(SortEntries(PrintedMembers(ms)))
  {
    hide SortEntries, Printed;
    var bare := seq(|ms|, i requires 0 <= i < |ms| => Entry(ms[i].key, []));
    assert KeysOf(bare) == KeysOf(PrintedMembers(ms));
    SortedKeysAgree(bare, PrintedMembers(ms));
  }

  lemma FindMember(ms: seq<Member>, j: nat)
    requires DistinctKeys(ms) && j < |ms|
    ensures Find(ms, ms[j].key) == j
  {
    assert ms[j] in ms;
  }

  // ---------- values ----------

  ghost predicate ItemsApart(a: seq<Json>, b: seq<Json>) {
    forall i, j | 0 <= i < |a| && 0 <= j < |b| :: Apart(Printed(a[i]), Printed(b[j]))
  }

  ghost predicate MembersApart(a: seq<Member>, b: seq<Member>) {
    forall i, j | 0 <= i < |a| && 0 <= j < |b| :: Apart(Printed(a[i].value), Printed(b[j].value))
  }

  function Texts(items: seq<Json>): (r: seq<Text>)
    ensures |r| == |items|
  {
    seq(|items|, i requires 0 <= i < |items| => Printed(items[i]))
  }

  lemma PrintedArray(items: seq<Json>)
    ensures Printed(JArray(items)) == [OPEN_ARRAY] + Join(Texts(items)) + [CLOSE_ARRAY]
  {
    assert Texts(items) == seq(|items|, i requires 0 <= i < |items| => Printed(items[i]));
  }

  lemma ArraysDelimited(a: seq<Json>, b: seq<Json>, x: Text, y: Text)
    requires Valid(JArray(a)) && Valid(JArray(b)) && ItemsApart(a, b)
    requires Printed(JArray(a)) + x == Printed(JArray(b)) + y
    ensures Texts(a) == Texts(b) && x == y
  {
    hide Join, Printed, Apart;
    PrintedArray(a);
    PrintedArray(b);
    forall i | 0 <= i < |a| ensures Texts(a)[i] != [] && Texts(a)[i][0] != CLOSE_ARRAY { PrintedStarts(a[i]); }
    forall i | 0 <= i < |b| ensures Texts(b)[i] != [] && Texts(b)[i][0] != CLOSE_ARRAY { PrintedStarts(b[i]); }
    assert (Printed(JArray(a)) + x)[1..] == Join(Texts(a)) + [CLOSE_ARRAY] + x;
    assert (Printed(JArray(b)) + y)[1..] == Join(Texts(b)) + [CLOSE_ARRAY] + y;
    JoinsApart(Texts(a), Texts(b), CLOSE_ARRAY, x, y);
  }

  lemma SortedAt(ms: seq<Member>, k: nat) returns (i: nat)
    requires k < |ms|
    ensures i < |ms| && SortEntries(PrintedMembers(ms))[k] == Entry(ms[i].key, Printed(ms[i].value))
  {
    hide SortEntries, Printed;
    var entries := PrintedMembers(ms);
    SortElements(entries);
    assert SortEntries(entries)[k] in SortEntries(entries);
    i :| 0 <= i < |entries| && entries[i] == SortEntries(entries)[k];
  }

  lemma ObjectsDelimited(a: seq<Member>, b: seq<Member>, x: Text, y: Text)
    requires MembersApart(a, b) && Printed(JObject(a)) + x == Printed(JObject(b)) + y
    ensures SortEntries(PrintedMembers(a)) == SortEntries(PrintedMembers(b)) && x == y
  {
    hide Join, Printed, SortEntries, PrintedMembers, Apart, EntryText, EntryTexts, MembersApart;
    var s := SortEntries(PrintedMembers(a));
    var t := SortEntries(PrintedMembers(b));
    PrintedObject(a);
    PrintedObject(b);
    EntryTextsApart(a, b);
    EntriesStart(s);
    EntriesStart(t);
    assert (Printed(JObject(a)) + x)[1..] == Join(EntryTexts(s)) + [CLOSE_OBJECT] + x;
    assert (Printed(JObject(b)) + y)[1..] == Join(EntryTexts(t)) + [CLOSE_OBJECT] + y;
    JoinsApart(EntryTexts(s), EntryTexts(t), CLOSE_OBJECT, x, y);
    EntryTextsEqual(s, t);
  }

  lemma PrintedObject(ms: seq<Member>)
    ensures Printed(JObject(ms)) == [OPEN_OBJECT] + Join(EntryTexts(SortEntries(PrintedMembers(ms)))) + [CLOSE_OBJECT]
  {
  }

  lemma EntriesStart(s: seq<Entry>)
    ensures Starts(EntryTexts(s), CLOSE_OBJECT)
  {
    hide EntryText;
    forall i | 0 <= i < |s| ensures EntryTexts(s)[i] != [] && EntryTexts(s)[i][0] != CLOSE_OBJECT { EntryStarts(s[i]); }
  }

  lemma EntryTextsEqual(s: seq<Entry>, t: seq<Entry>)
    requires EntryTexts(s) == EntryTexts(t)
    ensures s == t
  {
    hide EntryText;
    assert |EntryTexts(s)| == |EntryTexts(t)|;
    forall i | 0 <= i < |s| ensures s[i] == t[i] {
      assert EntryTexts(s)[i] == EntryTexts(t)[i];
      EntryTextsDiffer(s[i], t[i]);
    }
  }

  lemma EntryTextsApart(a: seq<Member>, b: seq<Member>)
    requires MembersApart(a, b)
    ensures AllApart(EntryTexts(SortEntries(PrintedMembers(a))), EntryTexts(SortEntries(PrintedMembers(b))))
  {
    hide Printed, SortEntries, Apart, EntryText;
    var s := SortEntries(PrintedMembers(a));
    var t := SortEntries(PrintedMembers(b));
    forall i, j | 0 <= i < |s| && 0 <= j < |t| ensures Apart(EntryTexts(s)[i], EntryTexts(t)[j]) {
      var k := SortedAt(a, i);
      var l := SortedAt(b, j);
      EntriesApart(s[i], t[j]);
    }
  }

  /** A printed value ends where it ends. */
  lemma {:induction false} PrintedApart(a: Json, b: Json)
    requires Valid(a) && Valid(b)
    ensures Apart(Printed(a), Printed(b))
    decreases a
  {
    hide Printed, Quoted, Join, SortEntries;
    PrintedStarts(a);
    PrintedStarts(b);
    if a.JArray? && b.JArray? {
      forall i, j | 0 <= i < |a.items| && 0 <= j < |b.items| ensures Apart(Printed(a.items[i]), Printed(b.items[j])) {
        PrintedApart(a.items[i], b.items[j]);
      }
      ArrayTextsApart(a.items, b.items);
    } else if a.JObject? && b.JObject? {
      forall i, j | 0 <= i < |a.members| && 0 <= j < |b.members|
        ensures Apart(Printed(a.members[i].value), Printed(b.members[j].value))
      {
        PrintedApart(a.members[i].value, b.members[j].value);
      }
      ObjectTextsApart(a.members, b.members);
    } else if a.JNumber? && b.JNumber? {
      PrintedLeaf(a);
      PrintedLeaf(b);
      NumbersApart(a.text, b.text);
    } else if a.JString? && b.JString? {
      PrintedLeaf(a);
      PrintedLeaf(b);
      StringsApart(a.chars, b.chars);
    } else if Printed(a)[0] != Printed(b)[0] {
      FirstUnits(Printed(a), Printed(b));
    } else {
      assert a == b;
    }
  }

  lemma PrintedLeaf(v: Json)
    ensures v.JNumber? ==> Printed(v) == v.text
    ensures v.JString? ==> Printed(v) == Quoted(v.chars)
  {
  }

  lemma ArrayTextsApart(a: seq<Json>, b: seq<Json>)
    requires Valid(JArray(a)) && Valid(JArray(b)) && ItemsApart(a, b)
    ensures Apart(Printed(JArray(a)), Printed(JArray(b)))
  {
    hide Printed, Join, ItemsApart;
    PrintedArray(a);
    PrintedArray(b);
    forall x, y | Ends(x) && Ends(y)
      ensures Printed(JArray(a)) + x == Printed(JArray(b)) + y ==> Printed(JArray(a)) == Printed(JArray(b))
    {
      if Printed(JArray(a)) + x == Printed(JArray(b)) + y { ArraysDelimited(a, b, x, y); }
    }
  }

  lemma ObjectTextsApart(a: seq<Member>, b: seq<Member>)
    requires MembersApart(a, b)
    ensures Apart(Printed(JObject(a)), Printed(JObject(b)))
  {
    hide Join, MembersApart, SortEntries, PrintedMembers;
    forall x, y | Ends(x) && Ends(y)
      ensures Printed(JObject(a)) + x == Printed(JObject(b)) + y ==> Printed(JObject(a)) == Printed(JObject(b))
    {
      if Printed(JObject(a)) + x == Printed(JObject(b)) + y { ObjectsDelimited(a, b, x, y); }
    }
  }

  // ---------- printing alike is matching ----------

  ghost predicate Agree(a: Json, b: Json) {
    Printed(a) == Printed(b) <==> IntentsMatch(a, b)
  }

  lemma ArraysAgree(a: seq<Json>, b: seq<Json>)
    requires Valid(JArray(a)) && Valid(JArray(b))
    requires forall i | 0 <= i < |a| && i < |b| :: Agree(a[i], b[i])
    ensures Agree(JArray(a), JArray(b))
  {
    hide Printed, Join;
    forall i, j | 0 <= i < |a| && 0 <= j < |b| ensures Apart(Printed(a[i]), Printed(b[j])) { PrintedApart(a[i], b[j]); }
    PrintedArray(a);
    PrintedArray(b);
    if Printed(JArray(a)) == Printed(JArray(b)) {
      assert Printed(JArray(a)) + [] == Printed(JArray(b)) + [];
      ArraysDelimited(a, b, [], []);
      forall i | 0 <= i < |a| ensures IntentsMatch(a[i], b[i]) {
        assert Texts(a)[i] == Texts(b)[i];
      }
    }
    if IntentsMatch(JArray(a), JArray(b)) {
      assert Texts(a) == Texts(b);
    }
  }

  lemma ObjectsMatch(a: seq<Member>, b: seq<Member>)
    requires Valid(JObject(a)) && Valid(JObject(b))
    requires forall i, j | 0 <= i < |a| && 0 <= j < |b| :: Agree(a[i].value, b[j].value)
    requires SortEntries(PrintedMembers(a)) == SortEntries(PrintedMembers(b))
    ensures IntentsMatch(JObject(a), JObject(b))
  {
    hide Printed, SortEntries, Valid, PrintedMembers;
    assert DistinctKeys(b) by { ValidKeys(b); }
    SortedKeysArePrinted(a);
    SortedKeysArePrinted(b);
    forall i | 0 <= i < |a|
      ensures Find(b, a[i].key) >= 0 && IntentsMatch(a[i].value, b[Find(b, a[i].key)].value)
    {
      var j := Counterpart(a, b, i);
      FindMember(b, j);
    }
  }

  lemma ValidKeys(ms: seq<Member>)
    requires Valid(JObject(ms))
    ensures DistinctKeys(ms)
  {
  }

  lemma Counterpart(a: seq<Member>, b: seq<Member>, i: nat) returns (j: nat)
    requires SortEntries(PrintedMembers(a)) == SortEntries(PrintedMembers(b)) && i < |a|
    ensures j < |b| && b[j].key == a[i].key && Printed(b[j].value) == Printed(a[i].value)
  {
    hide Printed, SortEntries;
    var e := PrintedMembers(a)[i];
    assert e in PrintedMembers(a);
    SortElements(PrintedMembers(a));
    SortElements(PrintedMembers(b));
    assert e in PrintedMembers(b);
    j :| 0 <= j < |b| && PrintedMembers(b)[j] == e;
  }

  lemma ObjectsPrint(a: seq<Member>, b: seq<Member>)
    requires Valid(JObject(a)) && Valid(JObject(b))
    requires forall i, j | 0 <= i < |a| && 0 <= j < |b| :: Agree(a[i].value, b[j].value)
    requires IntentsMatch(JObject(a), JObject(b))
    ensures SortEntries(PrintedMembers(a)) == SortEntries(PrintedMembers(b))
  {
    hide Printed, SortEntries, Valid, PrintedMembers, SortedKeys;
    ValidKeys(b);
    SortedKeysArePrinted(a);
    SortedKeysArePrinted(b);
    var s := SortEntries(PrintedMembers(a));
    var t := SortEntries(PrintedMembers(b));
    assert |s| == |t| by { assert |KeysOf(s)| == |KeysOf(t)|; }
    forall k | 0 <= k < |s| ensures s[k] == t[k] {
      assert KeysOf(s)[k] == KeysOf(t)[k];
      var i := SortedAt(a, k);
      var j := SortedAt(b, k);
      FindMember(b, j);
      assert Agree(a[i].value, b[j].value);
    }
  }

  lemma ObjectsAgree(a: seq<Member>, b: seq<Member>)
    requires Valid(JObject(a)) && Valid(JObject(b))
    requires forall i, j | 0 <= i < |a| && 0 <= j < |b| :: Agree(a[i].value, b[j].value)
    ensures Agree(JObject(a), JObject(b))
  {
    hide SortEntries, PrintedMembers, Join, IntentsMatch, Apart;
    forall i, j | 0 <= i < |a| && 0 <= j < |b| ensures Apart(Printed(a[i].value), Printed(b[j].value)) {
      PrintedApart(a[i].value, b[j].value);
    }
    if Printed(JObject(a)) == Printed(JObject(b)) {
      assert Printed(JObject(a)) + [] == Printed(JObject(b)) + [];
      ObjectsDelimited(a, b, [], []);
      ObjectsMatch(a, b);
    }
    if IntentsMatch(JObject(a), JObject(b)) {
      ObjectsPrint(a, b);
    }
  }

  /** Two values print alike exactly when their intents match. */
  lemma {:induction false} PrintsAlikeIffMatch(a: Json, b: Json)
    requires Valid(a) && Valid(b)
    ensures Printed(a) == Printed(b) <==> IntentsMatch(a, b)
    decreases a
  {
    hide Printed, Join, SortEntries, SortedKeys, Quoted;
    PrintedStarts(a);
    PrintedStarts(b);
    if a.JArray? && b.JArray? {
      forall i | 0 <= i < |a.items| && i < |b.items| ensures Agree(a.items[i], b.items[i]) {
        PrintsAlikeIffMatch(a.items[i], b.items[i]);
      }
      ArraysAgree(a.items, b.items);
    } else if a.JObject? && b.JObject? {
      forall i, j | 0 <= i < |a.members| && 0 <= j < |b.members| ensures Agree(a.members[i].value, b.members[j].value) {
        PrintsAlikeIffMatch(a.members[i].value, b.members[j].value);
      }
      ObjectsAgree(a.members, b.members);
    } else {
      PrintedLeaf(a);
      PrintedLeaf(b);
      if a.JString? && b.JString? && Printed(a) == Printed(b) {
        assert Quoted(a.chars) + [] == Quoted(b.chars) + [];
        QuotedIsDelimited(a.chars, b.chars, [], []);
      }
    }
  }

  /** So matching is an equivalence on valid values. */
  lemma MatchingIsEquivalence(a: Json, b: Json, c: Json)
    requires Valid(a) && Valid(b) && Valid(c)
    ensures IntentsMatch(a, a)
    ensures IntentsMatch(a, b) ==> IntentsMatch(b, a)
    ensures IntentsMatch(a, b) && IntentsMatch(b, c) ==> IntentsMatch(a, c)
  {
    hide IntentsMatch, Printed;
    PrintsAlikeIffMatch(a, a);
    PrintsAlikeIffMatch(a, b);
    PrintsAlikeIffMatch(b, a);
    PrintsAlikeIffMatch(b, c);
    PrintsAlikeIffMatch(a, c);
  }

  // ---------- the order of members does not matter ----------

  lemma {:induction false} BeforeIsOrder(a: Text, b: Text)
    ensures !(Before(a, b) && Before(b, a))
    ensures a != b ==> Before(a, b) || Before(b, a)
    ensures !Before(a, a)
  {
    if a != [] { BeforeIsOrder(a[1..], if b != [] then b[1..] else []); }
    if a != [] && b != [] && a[0] == b[0] && a[1..] == b[1..] {
      assert a == [a[0]] + a[1..] && b == [b[0]] + b[1..];
    }
  }

  lemma {:induction false} BeforeIsTransitive(a: Text, b: Text, c: Text)
    requires Before(a, b) && Before(b, c)
    ensures Before(a, c)
  {
    if a != [] && a[0] == b[0] == c[0] { BeforeIsTransitive(a[1..], b[1..], c[1..]); }
  }

  predicate Ascending(s: seq<Entry>) {
    forall i, j | 0 <= i < j < |s| :: Before(s[i].key, s[j].key)
  }

  predicate DistinctEntries(s: seq<Entry>) {
    forall i, j | 0 <= i < j < |s| :: s[i].key != s[j].key
  }

  lemma {:induction false} InsertAscends(e: Entry, s: seq<Entry>)
    requires Ascending(s) && forall x | x in s :: x.key != e.key
    ensures Ascending(Insert(e, s))
  {
    hide Before;
    if s != [] {
      BeforeIsOrder(e.key, s[0].key);
      assert s[0] in s;
      if Before(e.key, s[0].key) {
        forall j | 0 <= j < |s| ensures Before(e.key, s[j].key) {
          if j > 0 { BeforeIsTransitive(e.key, s[0].key, s[j].key); }
        }
      } else {
        InsertAscends(e, s[1..]);
        InsertElements(e, s[1..]);
        var r := Insert(e, s[1..]);
        forall x | x in r ensures Before(s[0].key, x.key) {
          if x != e { var k :| 0 <= k < |s[1..]| && s[1..][k] == x; assert s[k + 1] == x; }
        }
      }
    }
  }

  lemma {:induction false} SortAscends(s: seq<Entry>)
    requires DistinctEntries(s)
    ensures Ascending(SortEntries(s))
  {
    hide Before;
    if s != [] {
      SortAscends(s[1..]);
      SortElements(s[1..]);
      forall x | x in SortEntries(s[1..]) ensures x.key != s[0].key {
        var k :| 0 <= k < |s[1..]| && s[1..][k] == x;
      }
      InsertAscends(s[0], SortEntries(s[1..]));
    }
  }

  /** Ascending lists of the same entries are equal. */
  lemma {:induction false} AscendingIsUnique(s: seq<Entry>, t: seq<Entry>)
    requires Ascending(s) && Ascending(t) && forall x :: x in s <==> x in t
    ensures s == t
  {
    hide Before;
    assert t != [] ==> t[0] in t;
    if s != [] {
      assert s[0] in s && s[0] in t;
      assert t != [];
      SameHead(s, t);
      forall x ensures x in s[1..] <==> x in t[1..] {
        TailElements(s, x);
        TailElements(t, x);
      }
      AscendingIsUnique(s[1..], t[1..]);
      assert s == [s[0]] + s[1..] && t == [t[0]] + t[1..];
    }
  }

  lemma TailElements(s: seq<Entry>, x: Entry)
    requires Ascending(s) && s != []
    ensures x in s[1..] <==> x in s && x != s[0]
  {
    hide Before;
    if x in s[1..] {
      var k :| 0 <= k < |s[1..]| && s[1..][k] == x;
      assert Before(s[0].key, s[k + 1].key);
      BeforeIsOrder(x.key, x.key);
    }
    if x in s && x != s[0] {
      var k :| 0 <= k < |s| && s[k] == x;
      assert s[1..][k - 1] == x;
    }
  }

  lemma SameHead(s: seq<Entry>, t: seq<Entry>)
    requires Ascending(s) && Ascending(t) && s != [] && t != [] && forall x :: x in s <==> x in t
    ensures s[0] == t[0]
  {
    hide Before;
    assert s[0] in t && t[0] in s by { assert s[0] in s && t[0] in t; }
    var i :| 0 <= i < |t| && t[i] == s[0];
    var j :| 0 <= j < |s| && s[j] == t[0];
    BeforeIsOrder(s[0].key, t[0].key);
  }

  /** Objects with the same members in another order print alike, and so match. */
  lemma OrderDoesNotMatter(a: seq<Member>, b: seq<Member>)
    requires Valid(JObject(a)) && Valid(JObject(b)) && forall m :: m in a <==> m in b
    ensures Printed(JObject(a)) == Printed(JObject(b)) && IntentsMatch(JObject(a), JObject(b))
  {
    PrintsAlikeIffMatch(JObject(a), JObject(b));
    SameSorted(a, b);
    hide IntentsMatch, Join, SortEntries, PrintedMembers, Valid;
  }

  lemma SameSorted(a: seq<Member>, b: seq<Member>)
    requires Valid(JObject(a)) && Valid(JObject(b)) && forall m :: m in a <==> m in b
    ensures SortEntries(PrintedMembers(a)) == SortEntries(PrintedMembers(b))
  {
    hide SortEntries, Printed, Before, Valid;
    ValidKeys(a);
    ValidKeys(b);
    SortAscends(PrintedMembers(a));
    SortAscends(PrintedMembers(b));
    SortElements(PrintedMembers(a));
    SortElements(PrintedMembers(b));
    forall x ensures x in PrintedMembers(a) <==> x in PrintedMembers(b) {
      PrintedIn(a, b, x);
      PrintedIn(b, a, x);
    }
    AscendingIsUnique(SortEntries(PrintedMembers(a)), SortEntries(PrintedMembers(b)));
  }

  lemma PrintedIn(a: seq<Member>, b: seq<Member>, x: Entry)
    requires forall m | m in a :: m in b
    ensures x in PrintedMembers(a) ==> x in PrintedMembers(b)
  {
    hide Printed;
    if x in PrintedMembers(a) {
      var i :| 0 <= i < |a| && PrintedMembers(a)[i] == x;
      assert a[i] in b;
      var j :| 0 <= j < |b| && b[j] == a[i];
      assert PrintedMembers(b)[j] == x;
    }
  }
}
