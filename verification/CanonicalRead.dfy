/**
 Reading canonical text back: a reader of JSON text as RFC 8259 describes it (without white space, of which
 the canonical form has none) gives the value printed, up to undefined members and member order.
 */
module CanonicalReads {
  import opened Options
  import opened CanonicalJson

  // --- The reader -----------------------------------------------------------------------------------------

  /** The value of a hexadecimal digit (section 7). */
  function HexValue(c: char): Option<nat> {
    if '0' <= c <= '9' then Some(c as int - '0' as int)
    else if 'a' <= c <= 'f' then Some(c as int - 'a' as int + 10)
    else if 'A' <= c <= 'F' then Some(c as int - 'A' as int + 10)
    else None
  }

  /** The character of four hexadecimal digits; surrogates are no characters here. */
  function FromHex(t: string): Option<char>
    requires |t| == 4
  {
    var a, b, c, d := HexValue(t[0]), HexValue(t[1]), HexValue(t[2]), HexValue(t[3]);
    if a.None? || b.None? || c.None? || d.None? then None
    else
      var code := 4096 * a.value + 256 * b.value + 16 * c.value + d.value;
      if code < 0xD800 || 0xE000 <= code < 0x10000 then Some(code as char) else None
  }

  /** What the letter behind a backslash stands for. */
  function Unescaped(c: char): Option<char> {
    match c
    case '\"' => Some('\"')
    case '\\' => Some('\\')
    case '/' => Some('/')
    case 'b' => Some(8 as char)
    case 'f' => Some(12 as char)
    case 'n' => Some(10 as char)
    case 'r' => Some(13 as char)
    case 't' => Some(9 as char)
    case _ => None
  }

  /** One character of a string, escaped or not. */
  function ReadChar(t: string): (r: Option<(char, string)>)
    ensures r.Some? ==> |r.value.1| < |t|
  {
    if t == "" || t[0] == '\"' || t[0] as int < 32 then None
    else if t[0] != '\\' then Some((t[0], t[1..]))
    else if |t| >= 2 && t[1] != 'u' then
      var c := Unescaped(t[1]);
      if c.None? then None else Some((c.value, t[2..]))
    else if |t| < 6 || FromHex(t[2..6]).None? then None
    else Some((FromHex(t[2..6]).value, t[6..]))
  }

  /** The rest of a string, up to its closing quote. */
  function ReadString(t: string): (r: Option<(string, string)>)
    ensures r.Some? ==> |r.value.1| < |t|
    decreases |t|
  {
    if t != "" && t[0] == '\"' then Some(("", t[1..]))
    else
      match ReadChar(t)
      case None => None
      case Some((c, rest)) =>
        match ReadString(rest)
        case None => None
        case Some((s, after)) => Some(([c] + s, after))
  }

  /** The number characters a text begins with. */
  function ReadNumber(t: string): (r: (string, string))
    ensures |r.1| <= |t| && (r.0 != "" ==> |r.1| < |t|)
  {
    if t == "" || !NumberChar(t[0]) then ("", t)
    else var (digits, rest) := ReadNumber(t[1..]); ([t[0]] + digits, rest)
  }

  function ReadWord(t: string, word: string, value: Json): (r: Option<(Json, string)>)
    requires word != ""
    ensures r.Some? ==> |r.value.1| < |t|
  {
    if |word| <= |t| && t[..|word|] == word then Some((value, t[|word|..])) else None
  }

  /** One value, and what follows it. */
  function Read(t: string): (r: Option<(Json, string)>)
    ensures r.Some? ==> |r.value.1| < |t|
    decreases |t|, 0
  {
    if t == "" then None
    else if t[0] == '\"' then
      match ReadString(t[1..])
      case None => None
      case Some((s, rest)) => Some((Str(s), rest))
    else if t[0] == '[' then
      match ReadItems(t[1..], false)
      case None => None
      case Some((items, rest)) => Some((Arr(items), rest))
    else if t[0] == '{' then
      match ReadMembers(t[1..], false)
      case None => None
      case Some((members, rest)) => Some((Obj(members), rest))
    else if t[0] == 'n' then ReadWord(t, "null", Null)
    else if t[0] == 't' then ReadWord(t, "true", Bool(true))
    else if t[0] == 'f' then ReadWord(t, "false", Bool(false))
    else
      var (digits, rest) := ReadNumber(t);
      if digits == "" then None else Some((Num(digits), rest))
  }

  /** The comma before an item that is not the first. */
  function Separated(t: string, more: bool): (r: Option<string>)
    ensures r.Some? ==> |r.value| <= |t|
  {
    if !more then Some(t) else if t != "" && t[0] == ',' then Some(t[1..]) else None
  }

  function ReadItems(t: string, more: bool): (r: Option<(seq<Json>, string)>)
    ensures r.Some? ==> |r.value.1| < |t|
    decreases |t|, 1
  {
    if t != "" && t[0] == ']' then Some(([], t[1..]))
    else
      var next := Separated(t, more);
      if next.None? then None
      else
        match Read(next.value)
        case None => None
        case Some((item, rest)) =>
          match ReadItems(rest, true)
          case None => None
          case Some((items, after)) => Some(([item] + items, after))
  }

  function ReadMember(t: string): (r: Option<(Member, string)>)
    ensures r.Some? ==> |r.value.1| < |t|
    decreases |t|, 1
  {
    if t == "" || t[0] != '\"' then None
    else
      match ReadString(t[1..])
      case None => None
      case Some((key, rest)) =>
        if rest == "" || rest[0] != ':' then None
        else
          match Read(rest[1..])
          case None => None
          case Some((value, after)) => Some((Member(key, Some(value)), after))
  }

  function ReadMembers(t: string, more: bool): (r: Option<(seq<Member>, string)>)
    ensures r.Some? ==> |r.value.1| < |t|
    decreases |t|, 2
  {
    if t != "" && t[0] == '}' then Some(([], t[1..]))
    else
      var next := Separated(t, more);
      if next.None? then None
      else
        match ReadMember(next.value)
        case None => None
        case Some((m, rest)) =>
          match ReadMembers(rest, true)
          case None => None
          case Some((members, after)) => Some(([m] + members, after))
  }

  // --- Reading what was printed -------------------------------------------------------------------------------

  lemma EscapesReadBack(c: char, r: string)
    ensures ReadChar(Escape(c) + r) == Some((c, r))
  {
    var t := Escape(c) + r;
    if |Escape(c)| == 1 {
      assert t[1..] == r;
    } else if |Escape(c)| == 2 {
      assert t[0] == '\\' && t[1] == Escape(c)[1] && t[2..] == r;
    } else {
      HexReadsBack(c as int);
      assert t[2..6] == "00" + [Hex(c as int / 16), Hex(c as int % 16)] && t[6..] == r;
    }
  }

  lemma HexReadsBack(n: nat)
    requires n < 32
    ensures FromHex("00" + [Hex(n / 16), Hex(n % 16)]) == Some(n as char)
  {
    var t := "00" + [Hex(n / 16), Hex(n % 16)];
    assert t[0] == '0' && t[1] == '0' && t[2] == Hex(n / 16) && t[3] == Hex(n % 16);
    HexDigit(n / 16);
    HexDigit(n % 16);
  }

  lemma HexDigit(d: nat)
    requires d < 16
    ensures HexValue(Hex(d)) == Some(d)
  {
  }

  lemma {:induction false} StringsReadBack(s: string, r: string)
    ensures ReadString(Escaped(s) + "\"" + r) == Some((s, r))
  {
    var t := Escaped(s) + "\"" + r;
    if s == "" {
      assert t[0] == '\"' && t[1..] == r;
    } else {
      EscapedStarts(s, r);
      EscapesReadBack(s[0], Escaped(s[1..]) + "\"" + r);
      StringsReadBack(s[1..], r);
      assert s == [s[0]] + s[1..];
    }
  }

  lemma {:induction false} NumbersReadBack(digits: string, r: string)
    requires (forall c | c in digits :: NumberChar(c)) && Ends(r)
    ensures ReadNumber(digits + r) == (digits, r)
  {
    var t := digits + r;
    if digits == "" {
      assert t == r;
    } else {
      assert digits[0] in digits && t[0] == digits[0] && t[1..] == digits[1..] + r;
      forall c | c in digits[1..] ensures NumberChar(c) { assert c in digits; }
      NumbersReadBack(digits[1..], r);
      assert digits == [digits[0]] + digits[1..];
    }
  }

  lemma WordsReadBack(word: string, value: Json, r: string)
    requires word != ""
    ensures ReadWord(word + r, word, value) == Some((value, r))
  {
    assert (word + r)[..|word|] == word && (word + r)[|word|..] == r;
  }

  lemma WordsAndNumbersReadBack(v: Json, r: string)
    requires (v.Null? || v.Bool? || v.Num?) && Solid(v) && Ends(r)
    ensures Read(Text(v) + r) == Some((v, r))
  {
    var t := Text(v) + r;
    if v.Num? {
      NumbersReadBack(v.text, r);
      assert v.text[0] in v.text && t[0] == v.text[0];
    } else {
      WordsReadBack(Text(v), v, r);
    }
  }

  /** A quote, a bracket and a brace say what is to be read. */
  lemma OpeningsDecide(open: char, t: string)
    ensures open == '\"' && ReadString(t).Some? ==> Read([open] + t) == Some((Str(ReadString(t).value.0), ReadString(t).value.1))
    ensures open == '[' && ReadItems(t, false).Some? ==>
              Read([open] + t) == Some((Arr(ReadItems(t, false).value.0), ReadItems(t, false).value.1))
    ensures open == '{' && ReadMembers(t, false).Some? ==>
              Read([open] + t) == Some((Obj(ReadMembers(t, false).value.0), ReadMembers(t, false).value.1))
  {
    assert ([open] + t)[1..] == t;
  }

  lemma QuotesReadBack(text: string, r: string)
    ensures Read(Quote(text) + r) == Some((Str(text), r))
  {
    var rest := Escaped(text) + "\"" + r;
    StringsReadBack(text, r);
    OpeningsDecide('\"', rest);
    assert Quote(text) + r == ['\"'] + rest;
  }

  lemma ListsReadBack(items: seq<Json>, r: string)
    requires ReadItems(ItemsText(items, false) + r, false) == Some((items, r))
    ensures Read(Text(Arr(items)) + r) == Some((Arr(items), r))
  {
    var rest := ItemsText(items, false) + r;
    OpeningsDecide('[', rest);
    assert Text(Arr(items)) + r == ['['] + rest;
  }

  lemma ObjectsReadBack(members: seq<Member>, r: string)
    requires ReadMembers(MembersText(members, false) + r, false) == Some((members, r))
    ensures Read(Text(Obj(members)) + r) == Some((Obj(members), r))
  {
    var rest := MembersText(members, false) + r;
    OpeningsDecide('{', rest);
    assert "{" + MembersText(members, false) + r == ['{'] + rest;
  }

  /** A solid value's text, followed by what may follow it, reads as that value. */
  lemma {:induction false} TextsReadBack(v: Json, r: string)
    requires Solid(v) && Ends(r)
    ensures Read(Text(v) + r) == Some((v, r))
    decreases v, 2
  {
    match v
    case Str(text) => QuotesReadBack(text, r);
    case Arr(items) =>
      ItemsReadBack(items, false, r);
      ListsReadBack(items, r);
    case Obj(members) =>
      MembersReadBack(members, false, r);
      ObjectsReadBack(members, r);
    case _ => WordsAndNumbersReadBack(v, r);
  }

  lemma SeparatedBack(more: bool, t: string)
    ensures Separated((if more then "," else "") + t, more) == Some(t)
  {
    assert "" + t == t && ("," + t)[1..] == t;
  }

  lemma {:induction false} ItemsReadBack(items: seq<Json>, more: bool, r: string)
    requires (forall x | x in items :: Solid(x)) && Ends(r)
    ensures ReadItems(ItemsText(items, more) + r, more) == Some((items, r))
    decreases items, 0
  {
    var t := ItemsText(items, more) + r;
    if items == [] {
      assert t[0] == ']' && t[1..] == r;
    } else {
      var rest := ItemsText(items[1..], true) + r;
      ItemsTextUnfolds(items, more, r);
      TextStarts(items[0], rest);
      SeparatedBack(more, Text(items[0]) + rest);
      TextsReadBack(items[0], rest);
      ItemsReadBack(items[1..], true, r);
      assert items == [items[0]] + items[1..];
      assert t[0] != ']';
    }
  }

  lemma {:induction false} MemberReadsBack(m: Member, r: string)
    requires m.value.Some? && Solid(m.value.value) && Ends(r)
    ensures ReadMember(MemberText(m) + r) == Some((m, r))
    decreases m, 3
  {
    var rest := ":" + (Text(m.value.value) + r);
    MemberTextUnfolds(m, r);
    var t := MemberText(m) + r;
    StringsReadBack(m.key, rest);
    assert t[0] == '\"' && t[1..] == Escaped(m.key) + "\"" + rest;
    assert rest[0] == ':' && rest[1..] == Text(m.value.value) + r;
    TextsReadBack(m.value.value, r);
  }

  lemma {:induction false} MembersReadBack(members: seq<Member>, more: bool, r: string)
    requires (forall m | m in members :: m.value.Some? && Solid(m.value.value)) && Ends(r)
    ensures ReadMembers(MembersText(members, more) + r, more) == Some((members, r))
    decreases members, 0
  {
    var t := MembersText(members, more) + r;
    if members == [] {
      assert t[0] == '}' && t[1..] == r;
    } else {
      var first, rest := MemberText(members[0]), MembersText(members[1..], true) + r;
      MembersTextUnfolds(members, more, r);
      SeparatedBack(more, first + rest);
      MemberReadsBack(members[0], rest);
      MembersReadBack(members[1..], true, r);
      assert members == [members[0]] + members[1..];
    }
  }

  /** What was printed reads as the canonical form of the value, and nothing is left to read. */
  lemma CanonicalTextReadsBack(leq: Leq, value: Json)
    requires Parsed(value)
    ensures Read(Print(leq, value)) == Some((Canon(leq, value), "")) && Means(Canon(leq, value)) == Means(value)
  {
    PrintsTheCanonicalForm(leq, value);
    CanonMeansTheSame(leq, value);
    TextsReadBack(Canon(leq, value), "");
    assert Text(Canon(leq, value)) + "" == Text(Canon(leq, value));
  }

  // --- The order of members ---------------------------------------------------------------------------------------

  ghost predicate Ordering(leq: Leq) {
    && (forall a, b :: leq(a, b) || leq(b, a))
    && forall a, b, c :: leq(a, b) && leq(b, c) ==> leq(a, c)
  }

  ghost predicate Ascends(leq: Leq, members: seq<Member>) {
    forall i, j | 0 <= i < j < |members| :: leq(members[i].key, members[j].key)
  }

  /** The members whose keys tie with this one. */
  function Tied(leq: Leq, key: string, members: seq<Member>): seq<Member> {
    if members == [] then []
    else (if leq(key, members[0].key) && leq(members[0].key, key) then [members[0]] else []) + Tied(leq, key, members[1..])
  }

  lemma {:induction false} InsertingAscends(leq: Leq, m: Member, sorted: seq<Member>)
    requires Ordering(leq) && Ascends(leq, sorted)
    ensures Ascends(leq, InsertMember(leq, m, sorted))
  {
    if sorted != [] && !leq(m.key, sorted[0].key) {
      InsertingAscends(leq, m, sorted[1..]);
      var rest := InsertMember(leq, m, sorted[1..]);
      forall x | x in rest ensures leq(sorted[0].key, x.key) {
        assert x in multiset(rest);
        if x != m {
          assert x in sorted[1..];
          var i :| 0 <= i < |sorted[1..]| && sorted[1..][i] == x;
          assert sorted[i + 1] == x;
        }
      }
    } else {
      var inserted := [m] + sorted;
      forall j | 0 < j < |inserted| ensures leq(m.key, inserted[j].key) {
        if j > 1 { assert leq(sorted[0].key, sorted[j - 1].key); }
      }
    }
  }

  lemma {:induction false} InsertingKeepsTies(leq: Leq, m: Member, sorted: seq<Member>, key: string)
    requires Ordering(leq)
    ensures Tied(leq, key, InsertMember(leq, m, sorted)) == Tied(leq, key, [m] + sorted)
  {
    assert ([m] + sorted)[1..] == sorted;
    if sorted != [] && !leq(m.key, sorted[0].key) {
      InsertingKeepsTies(leq, m, sorted[1..], key);
      assert ([m] + sorted[1..])[1..] == sorted[1..];
      var rest := InsertMember(leq, m, sorted[1..]);
      assert ([sorted[0]] + rest)[1..] == rest;
    }
  }

  /** Members are sorted ascending by key, and those with keys that tie stay in the order they had. */
  lemma {:induction false} SortingIsStable(leq: Leq, members: seq<Member>, key: string)
    requires Ordering(leq)
    ensures Ascends(leq, SortMembers(leq, members))
    ensures Tied(leq, key, SortMembers(leq, members)) == Tied(leq, key, members)
  {
    if members != [] {
      SortingIsStable(leq, members[1..], key);
      var sorted := SortMembers(leq, members[1..]);
      InsertingAscends(leq, members[0], sorted);
      InsertingKeepsTies(leq, members[0], sorted, key);
      assert ([members[0]] + sorted)[1..] == sorted;
    }
  }
}
