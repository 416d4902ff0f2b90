/**
 The canonical JSON printer every fingerprint rests on.

 A value is what `JSON.parse` can produce, plus object members that hold `undefined`: an
 object keeps its members in insertion order, and a number is the text it prints as. Keys are
 compared by `leq`, a stand-in for `localeCompare(...) <= 0`.
 */
module CanonicalJson {
  import opened Options

  datatype Json =
    | Null
    | Bool(on: bool)
    | Num(text: string)
    | Str(text: string)
    | Arr(items: seq<Json>)
    | Obj(members: seq<Member>)
  /** An undefined member is present under its key but never printed. */
  datatype Member = Member(key: string, value: Option<Json>)

  /** What a value means when member order does not. */
  datatype Meaning =
    | Atom(leaf: Json)
    | Listed(items: seq<Meaning>)
    | Keyed(members: map<string, Meaning>)

  type Leq = (string, string) -> bool

  // --- The printer ----------------------------------------------------------------------------

  function Hex(digit: nat): char
    requires digit < 16
  {
    "0123456789abcdef"[digit]
  }

  /** `JSON.stringify` of one character inside a string. */
  function Escape(c: char): string {
    if c == '\"' then "\\\""
    else if c == '\\' then "\\\\"
    else if c as int == 8 then "\\b"
    else if c as int == 9 then "\\t"
    else if c as int == 10 then "\\n"
    else if c as int == 12 then "\\f"
    else if c as int == 13 then "\\r"
    else if c as int < 32 then "\\u00" + [Hex(c as int / 16), Hex(c as int % 16)]
    else [c]
  }

  function Escaped(s: string): string {
    if s == "" then "" else Escape(s[0]) + Escaped(s[1..])
  }

  function Quote(s: string): string { "\"" + Escaped(s) + "\"" }

  function Join(parts: seq<string>): string {
    if parts == [] then ""
    else if |parts| == 1 then parts[0]
    else parts[0] + "," + Join(parts[1..])
  }

  function Defined(members: seq<Member>): (defined: seq<Member>)
    ensures forall m :: m in defined <==> m in members && m.value.Some?
  {
    if members == [] then []
    else (if members[0].value.Some? then [members[0]] else []) + Defined(members[1..])
  }

  function InsertMember(leq: Leq, m: Member, sorted: seq<Member>): (inserted: seq<Member>)
    ensures multiset(inserted) == multiset(sorted) + multiset{m}
  {
    if sorted == [] || leq(m.key, sorted[0].key) then [m] + sorted
    else
      assert sorted == [sorted[0]] + sorted[1..];
      [sorted[0]] + InsertMember(leq, m, sorted[1..])
  }

  /** The stable sort by key. */
  function SortMembers(leq: Leq, members: seq<Member>): (sorted: seq<Member>)
    ensures multiset(sorted) == multiset(members)
  {
    if members == [] then []
    else
      assert members == [members[0]] + members[1..];
      InsertMember(leq, members[0], SortMembers(leq, members[1..]))
  }

  /** The members an object prints, in order. */
  function Shown(leq: Leq, members: seq<Member>): (shown: seq<Member>)
    ensures forall m :: m in shown <==> m in members && m.value.Some?
  {
    var shown := SortMembers(leq, Defined(members));
    assert forall m :: m in shown <==> m in multiset(shown);
    shown
  }

  function Print(leq: Leq, value: Json): string
    decreases value
  {
    match value
    case Null => "null"
    case Bool(on) => if on then "true" else "false"
    case Num(text) => text
    case Str(text) => Quote(text)
    case Arr(items) =>
      "[" + Join(seq(|items|, i requires 0 <= i < |items| => Print(leq, items[i]))) + "]"
    case Obj(members) =>
      var shown := Shown(leq, members);
      "{" + Join(seq(|shown|, i requires 0 <= i < |shown| =>
        assert shown[i] in members;
        Quote(shown[i].key) + ":" + Print(leq, shown[i].value.value))) + "}"
  }

  // --- What values mean -------------------------------------------------------------------------

  /** The characters of a printed number. */
  predicate NumberChar(c: char) {
    '0' <= c <= '9' || c == '-' || c == '+' || c == '.' || c == 'e'
  }

  /** No key occurs twice. */
  ghost predicate Apart(members: seq<Member>) {
    members == [] || ((forall m | m in members[1..] :: m.key != members[0].key) && Apart(members[1..]))
  }

  /** Values of `JSON.parse`: number texts are number-like, object keys are distinct. */
  ghost predicate Parsed(value: Json)
    decreases value
  {
    match value
    case Num(text) => text != "" && forall c | c in text :: NumberChar(c)
    case Arr(items) => forall item | item in items :: Parsed(item)
    case Obj(members) =>
      Apart(members) && forall m | m in members && m.value.Some? :: Parsed(m.value.value)
    case _ => true
  }

  ghost predicate Has(members: seq<Member>, key: string, value: Json) {
    Member(key, Some(value)) in members
  }

  /** What the key holds in the object; the last word when a key repeats is not needed. */
  ghost function Value(members: seq<Member>, key: string): (value: Json)
    requires exists v :: Has(members, key, v)
    ensures Has(members, key, value)
  {
    var v :| Has(members, key, v); v
  }

  ghost function Keys(members: seq<Member>): (keys: set<string>)
    ensures forall k :: k in keys <==> exists v :: Has(members, k, v)
  {
    var keys := set m | m in members && m.value.Some? :: m.key;
    assert forall k :: k in keys ==> exists m :: m in members && m.value.Some? && m.key == k && Has(members, k, m.value.value);
    keys
  }

  ghost function Means(value: Json): Meaning
    decreases value
  {
    match value
    case Arr(items) => Listed(seq(|items|, i requires 0 <= i < |items| => Means(items[i])))
    case Obj(members) => Keyed(map k | k in Keys(members) :: Means(Value(members, k)))
    case _ => Atom(value)
  }

  // --- Texts are unambiguous ----------------------------------------------------------------------

  /** The canonical form: undefined members dropped, the others sorted, all the way down. */
  function Canon(leq: Leq, value: Json): Json
    decreases value
  {
    match value
    case Arr(items) => Arr(seq(|items|, i requires 0 <= i < |items| => Canon(leq, items[i])))
    case Obj(members) =>
      var shown := Shown(leq, members);
      Obj(seq(|shown|, i requires 0 <= i < |shown| =>
        assert shown[i] in members;
        Member(shown[i].key, Some(Canon(leq, shown[i].value.value)))))
    case _ => value
  }

  /** Every member is defined. */
  ghost predicate Solid(value: Json)
    decreases value
  {
    match value
    case Num(text) => text != "" && forall c | c in text :: NumberChar(c)
    case Arr(items) => forall item | item in items :: Solid(item)
    case Obj(members) => forall m | m in members :: m.value.Some? && Solid(m.value.value)
    case _ => true
  }

  /** The text of a solid value, read left to right. */
  function Text(value: Json): string
    decreases value, 0
  {
    match value
    case Null => "null"
    case Bool(on) => if on then "true" else "false"
    case Num(text) => text
    case Str(text) => Quote(text)
    case Arr(items) => "[" + ItemsText(items, false)
    case Obj(members) => "{" + MembersText(members, false)
  }

  /** The rest of an array, `more` when an item came before. */
  function ItemsText(items: seq<Json>, more: bool): string
    decreases items, 0
  {
    if items == [] then "]" else (if more then "," else "") + Text(items[0]) + ItemsText(items[1..], true)
  }

  function MemberText(m: Member): string
    decreases m, 1
  {
    Quote(m.key) + ":" + if m.value.Some? then Text(m.value.value) else ""
  }

  function MembersText(members: seq<Member>, more: bool): string
    decreases members, 0
  {
    if members == [] then "}" else (if more then "," else "") + MemberText(members[0]) + MembersText(members[1..], true)
  }

  /** What may follow a value: nothing, a separator or a closing bracket. */
  predicate Ends(rest: string) {
    rest == "" || rest[0] == ',' || rest[0] == ']' || rest[0] == '}'
  }

  /** The first two characters of an escape tell how long it is. */
  lemma EscapeLength(c: char, d: char)
    requires Escape(c)[0] == Escape(d)[0]
    requires Escape(c)[0] == '\\' ==> Escape(c)[1] == Escape(d)[1]
    ensures |Escape(c)| == |Escape(d)|
  {
  }

  lemma EscapeInjective(c: char, d: char)
    requires Escape(c) == Escape(d)
    ensures c == d
  {
    if |Escape(c)| == 6 {
      assert Escape(c)[4] == Escape(d)[4] && Escape(c)[5] == Escape(d)[5];
      assert c as int / 16 == d as int / 16 && c as int % 16 == d as int % 16;
    } else if |Escape(c)| == 2 {
      assert Escape(c)[1] == Escape(d)[1];
    } else {
      assert Escape(c)[0] == Escape(d)[0];
    }
  }

  lemma EscapeUnique(c: char, d: char, r: string, s: string)
    requires Escape(c) + r == Escape(d) + s
    ensures c == d && r == s
  {
    var t := Escape(c) + r;
    assert t[0] == Escape(c)[0] == Escape(d)[0];
    if t[0] == '\\' { assert t[1] == Escape(c)[1] == Escape(d)[1]; }
    EscapeLength(c, d);
    assert Escape(c) == t[..|Escape(c)|] == Escape(d);
    assert r == t[|Escape(c)|..] == s;
    EscapeInjective(c, d);
  }

  /** An escaped string never starts with the closing quote. */
  lemma EscapedStarts(u: string, r: string)
    requires u != ""
    ensures Escaped(u) + "\"" + r == Escape(u[0]) + (Escaped(u[1..]) + "\"" + r)
    ensures (Escaped(u) + "\"" + r)[0] != '\"'
  {
  }

  lemma {:induction false} QuoteUnique(u: string, v: string, r: string, s: string)
    requires Escaped(u) + "\"" + r == Escaped(v) + "\"" + s
    ensures u == v && r == s
  {
    var t := Escaped(u) + "\"" + r;
    if u != "" { EscapedStarts(u, r); } else { assert t[0] == '\"' && t[1..] == r; }
    if v != "" { EscapedStarts(v, s); } else { assert t[0] == '\"' && t[1..] == s; }
    if u != "" {
      EscapeUnique(u[0], v[0], Escaped(u[1..]) + "\"" + r, Escaped(v[1..]) + "\"" + s);
      QuoteUnique(u[1..], v[1..], r, s);
      assert u == [u[0]] + u[1..] && v == [v[0]] + v[1..];
    }
  }

  lemma NumberNotLonger(u: string, v: string, r: string, s: string)
    requires forall c | c in u :: NumberChar(c)
    requires Ends(s) && u + r == v + s
    ensures |u| <= |v|
  {
    var t := v + s;
    forall i | 0 <= i < |u| ensures NumberChar(t[i]) {
      assert t[i] == u[i] && u[i] in u;
    }
    assert |v| < |t| ==> t[|v|] == s[0] && !NumberChar(s[0]);
  }

  lemma NumberUnique(u: string, v: string, r: string, s: string)
    requires forall c | c in u :: NumberChar(c)
    requires forall c | c in v :: NumberChar(c)
    requires Ends(r) && Ends(s) && u + r == v + s
    ensures u == v && r == s
  {
    NumberNotLonger(u, v, r, s);
    NumberNotLonger(v, u, s, r);
    assert u == (u + r)[..|u|] == v && r == (u + r)[|u|..] == s;
  }

  /** Different kinds of value start with different characters. */
  lemma SameKind(a: Json, b: Json, r: string, s: string)
    requires Solid(a) && Solid(b) && Text(a) + r == Text(b) + s
    ensures a.Null? == b.Null? && a.Num? == b.Num? && a.Str? == b.Str? && a.Arr? == b.Arr? && a.Obj? == b.Obj?
    ensures a.Bool? == b.Bool? && (a.Bool? ==> a == b)
  {
    var t := Text(a) + r;
    assert t[0] == Text(a)[0] == Text(b)[0];
    assert a.Num? ==> NumberChar(t[0]) by { if a.Num? { assert a.text[0] in a.text; } }
    assert b.Num? ==> NumberChar(t[0]) by { if b.Num? { assert b.text[0] in b.text; } }
  }

  lemma Cancel(prefix: string, x: string, y: string)
    requires prefix + x == prefix + y
    ensures x == y
  {
    assert x == (prefix + x)[|prefix|..] && y == (prefix + y)[|prefix|..];
  }

  /** Reading a value back: its text followed by what may follow it determines both. */
  lemma {:induction false} TextUnique(a: Json, b: Json, r: string, s: string)
    requires Solid(a) && Solid(b) && Ends(r) && Ends(s)
    requires Text(a) + r == Text(b) + s
    ensures a == b && r == s
    decreases a, 2
  {
    SameKind(a, b, r, s);
    match a
    case Null => Cancel("null", r, s);
    case Bool(on) => Cancel(Text(a), r, s);
    case Num(text) => NumberUnique(text, b.text, r, s);
    case Str(text) => StringUnique(text, b.text, r, s);
    case Arr(items) =>
      Bracketed("[", ItemsText(items, false), r, ItemsText(b.items, false), s);
      ItemsUnique(items, b.items, false, r, s);
    case Obj(members) =>
      Bracketed("{", MembersText(members, false), r, MembersText(b.members, false), s);
      MembersUnique(members, b.members, false, r, s);
  }

  lemma Bracketed(open: string, x: string, r: string, y: string, s: string)
    requires open + x + r == open + y + s
    ensures x + r == y + s
  {
    assert open + x + r == open + (x + r) && open + y + s == open + (y + s);
    Cancel(open, x + r, y + s);
  }

  lemma StringUnique(u: string, v: string, r: string, s: string)
    requires Quote(u) + r == Quote(v) + s
    ensures u == v && r == s
  {
    assert Quote(u) + r == "\"" + (Escaped(u) + "\"") + r && Quote(v) + s == "\"" + (Escaped(v) + "\"") + s;
    Bracketed("\"", Escaped(u) + "\"", r, Escaped(v) + "\"", s);
    QuoteUnique(u, v, r, s);
  }

  lemma TextStarts(a: Json, r: string)
    requires Solid(a)
    ensures Text(a) + r != "" && !Ends(Text(a) + r)
  {
    if a.Num? { assert a.text[0] in a.text; }
  }

  lemma ItemsTextUnfolds(xs: seq<Json>, more: bool, r: string)
    requires xs != []
    ensures ItemsText(xs, more) + r == (if more then "," else "") + (Text(xs[0]) + (ItemsText(xs[1..], true) + r))
    ensures Ends(ItemsText(xs[1..], true) + r)
  {
  }

  lemma {:induction false} ItemsUnique(xs: seq<Json>, ys: seq<Json>, more: bool, r: string, s: string)
    requires (forall x | x in xs :: Solid(x)) && (forall y | y in ys :: Solid(y))
    requires ItemsText(xs, more) + r == ItemsText(ys, more) + s
    ensures xs == ys && r == s
    decreases xs, 0
  {
    var t := ItemsText(xs, more) + r;
    if xs != [] { ItemsTextUnfolds(xs, more, r); TextStarts(xs[0], ItemsText(xs[1..], true) + r); }
    if ys != [] { ItemsTextUnfolds(ys, more, s); TextStarts(ys[0], ItemsText(ys[1..], true) + s); }
    assert xs == [] <==> t[0] == ']';
    assert ys == [] <==> t[0] == ']';
    if xs == [] {
      Cancel("]", r, s);
    } else {
      var x, y := ItemsText(xs[1..], true) + r, ItemsText(ys[1..], true) + s;
      Cancel(if more then "," else "", Text(xs[0]) + x, Text(ys[0]) + y);
      TextUnique(xs[0], ys[0], x, y);
      ItemsUnique(xs[1..], ys[1..], true, r, s);
      assert xs == [xs[0]] + xs[1..] && ys == [ys[0]] + ys[1..];
    }
  }

  lemma MemberTextUnfolds(m: Member, r: string)
    requires m.value.Some?
    ensures MemberText(m) + r == "\"" + (Escaped(m.key) + "\"" + (":" + (Text(m.value.value) + r)))
  {
    var key, value := Escaped(m.key), Text(m.value.value);
    assert MemberText(m) == "\"" + key + "\"" + ":" + value;
  }

  lemma {:induction false} MemberUnique(a: Member, b: Member, r: string, s: string)
    requires a.value.Some? && Solid(a.value.value) && b.value.Some? && Solid(b.value.value)
    requires Ends(r) && Ends(s) && MemberText(a) + r == MemberText(b) + s
    ensures a == b && r == s
    decreases a, 3
  {
    var u, v := Text(a.value.value) + r, Text(b.value.value) + s;
    MemberTextUnfolds(a, r);
    MemberTextUnfolds(b, s);
    Cancel("\"", Escaped(a.key) + "\"" + (":" + u), Escaped(b.key) + "\"" + (":" + v));
    QuoteUnique(a.key, b.key, ":" + u, ":" + v);
    Cancel(":", u, v);
    TextUnique(a.value.value, b.value.value, r, s);
  }

  lemma MembersTextUnfolds(xs: seq<Member>, more: bool, r: string)
    requires xs != [] && xs[0].value.Some?
    ensures MembersText(xs, more) + r
            == (if more then "," else "") + (MemberText(xs[0]) + (MembersText(xs[1..], true) + r))
    ensures Ends(MembersText(xs[1..], true) + r)
    ensures (MembersText(xs, more) + r)[0] == if more then ',' else '\"'
  {
  }

  lemma {:induction false} MembersUnique(xs: seq<Member>, ys: seq<Member>, more: bool, r: string, s: string)
    requires forall x | x in xs :: x.value.Some? && Solid(x.value.value)
    requires forall y | y in ys :: y.value.Some? && Solid(y.value.value)
    requires MembersText(xs, more) + r == MembersText(ys, more) + s
    ensures xs == ys && r == s
    decreases xs, 0
  {
    var t := MembersText(xs, more) + r;
    if xs != [] { MembersTextUnfolds(xs, more, r); } else { assert t[0] == '}'; }
    if ys != [] { MembersTextUnfolds(ys, more, s); } else { assert t[0] == '}'; }
    if xs == [] {
      Cancel("}", r, s);
    } else {
      var x, y := MembersText(xs[1..], true) + r, MembersText(ys[1..], true) + s;
      Cancel(if more then "," else "", MemberText(xs[0]) + x, MemberText(ys[0]) + y);
      MemberUnique(xs[0], ys[0], x, y);
      MembersUnique(xs[1..], ys[1..], true, r, s);
      assert xs == [xs[0]] + xs[1..] && ys == [ys[0]] + ys[1..];
    }
  }

  // --- The printer prints the canonical form -------------------------------------------------------

  function Texts(items: seq<Json>): seq<string> {
    seq(|items|, i requires 0 <= i < |items| => Text(items[i]))
  }

  function MemberTexts(members: seq<Member>): seq<string> {
    seq(|members|, i requires 0 <= i < |members| => MemberText(members[i]))
  }

  /** Parts after one another, each but the first after a separator. */
  function Chain(parts: seq<string>, more: bool, close: string): string {
    if parts == [] then close else (if more then "," else "") + parts[0] + Chain(parts[1..], true, close)
  }

  lemma {:induction false} ChainJoins(parts: seq<string>, close: string)
    ensures Chain(parts, false, close) == Join(parts) + close
    ensures parts != [] ==> Chain(parts, true, close) == "," + Join(parts) + close
  {
    if parts != [] {
      ChainJoins(parts[1..], close);
      var rest := Chain(parts[1..], true, close);
      assert parts[1..] == [] ==> parts == [parts[0]];
      assert Chain(parts, false, close) == parts[0] + rest;
      assert Chain(parts, true, close) == "," + (parts[0] + rest);
    }
  }

  lemma {:induction false} ItemsChain(items: seq<Json>, more: bool)
    ensures ItemsText(items, more) == Chain(Texts(items), more, "]")
  {
    if items != [] {
      ItemsChain(items[1..], true);
      assert Texts(items)[1..] == Texts(items[1..]);
    }
  }

  lemma {:induction false} MembersChain(members: seq<Member>, more: bool)
    ensures MembersText(members, more) == Chain(MemberTexts(members), more, "}")
  {
    if members != [] {
      MembersChain(members[1..], true);
      assert MemberTexts(members)[1..] == MemberTexts(members[1..]);
    }
  }

  lemma ItemsPrint(leq: Leq, items: seq<Json>)
    requires forall i | 0 <= i < |items| :: Print(leq, items[i]) == Text(Canon(leq, items[i]))
    ensures Print(leq, Arr(items)) == Text(Canon(leq, Arr(items)))
  {
    var canon := Canon(leq, Arr(items)).items;
    ItemsChain(canon, false);
    ChainJoins(Texts(canon), "]");
    assert seq(|items|, i requires 0 <= i < |items| => Print(leq, items[i])) == Texts(canon);
  }

  lemma CanonMember(leq: Leq, members: seq<Member>, i: nat)
    requires i < |Shown(leq, members)|
    ensures var shown := Shown(leq, members);
            && Canon(leq, Obj(members)).Obj? && |Canon(leq, Obj(members)).members| == |shown|
            && shown[i].value.Some?
            && Canon(leq, Obj(members)).members[i] == Member(shown[i].key, Some(Canon(leq, shown[i].value.value)))
  {
    assert Shown(leq, members)[i] in Shown(leq, members);
  }

  /** What each shown member prints is the text of the canonical one. */
  lemma MemberPrints(leq: Leq, members: seq<Member>, i: nat)
    requires i < |Shown(leq, members)| && Shown(leq, members)[i].value.Some?
    requires Print(leq, Shown(leq, members)[i].value.value) == Text(Canon(leq, Shown(leq, members)[i].value.value))
    ensures var shown, canon := Shown(leq, members), Canon(leq, Obj(members)).members;
            i < |canon| && Quote(shown[i].key) + ":" + Print(leq, shown[i].value.value) == MemberText(canon[i])
  {
    CanonMember(leq, members, i);
  }

  lemma MembersPrint(leq: Leq, members: seq<Member>)
    requires forall m | m in Shown(leq, members) :: m.value.Some? && Print(leq, m.value.value) == Text(Canon(leq, m.value.value))
    ensures Print(leq, Obj(members)) == Text(Canon(leq, Obj(members)))
  {
    var shown, canon := Shown(leq, members), Canon(leq, Obj(members)).members;
    var printed := seq(|shown|, i requires 0 <= i < |shown| =>
        assert shown[i] in members;
        Quote(shown[i].key) + ":" + Print(leq, shown[i].value.value));
    assert |printed| == |MemberTexts(canon)|;
    forall i | 0 <= i < |printed| ensures printed[i] == MemberTexts(canon)[i] {
      assert shown[i] in shown;
      MemberPrints(leq, members, i);
    }
    assert printed == MemberTexts(canon);
    MembersChain(canon, false);
    ChainJoins(MemberTexts(canon), "}");
  }

  lemma MembersAreSolid(leq: Leq, members: seq<Member>)
    requires forall m | m in Shown(leq, members) :: m.value.Some? && Solid(Canon(leq, m.value.value))
    ensures Solid(Canon(leq, Obj(members)))
  {
    var shown, canon := Shown(leq, members), Canon(leq, Obj(members)).members;
    forall m | m in canon ensures m.value.Some? && Solid(m.value.value) {
      var i :| 0 <= i < |canon| && canon[i] == m;
      assert shown[i] in shown;
    }
  }

  lemma {:induction false} PrintsTheCanonicalForm(leq: Leq, value: Json)
    requires Parsed(value)
    ensures Print(leq, value) == Text(Canon(leq, value)) && Solid(Canon(leq, value))
    decreases value
  {
    match value
    case Arr(items) =>
      forall i | 0 <= i < |items|
        ensures Print(leq, items[i]) == Text(Canon(leq, items[i])) && Solid(Canon(leq, items[i]))
      {
        PrintsTheCanonicalForm(leq, items[i]);
      }
      ItemsPrint(leq, items);
    case Obj(members) =>
      forall m | m in Shown(leq, members)
        ensures m.value.Some? && Print(leq, m.value.value) == Text(Canon(leq, m.value.value)) && Solid(Canon(leq, m.value.value))
      {
        assert m in members;
        PrintsTheCanonicalForm(leq, m.value.value);
      }
      MembersPrint(leq, members);
      MembersAreSolid(leq, members);
    case _ =>
  }


  lemma {:induction false} ApartUnique(members: seq<Member>, m: Member, n: Member)
    requires Apart(members) && m in members && n in members && m.key == n.key
    ensures m == n
  {
    if m != members[0] || n != members[0] {
      assert members == [members[0]] + members[1..];
      assert m in members[1..] && n in members[1..];
      ApartUnique(members[1..], m, n);
    }
  }

  lemma ValueIsTheOnlyOne(members: seq<Member>, key: string, value: Json)
    requires Apart(members) && Has(members, key, value)
    ensures key in Keys(members) && Value(members, key) == value
  {
    ApartUnique(members, Member(key, Some(value)), Member(key, Some(Value(members, key))));
  }

  /** Canonicalising changes no meaning. */
  lemma {:induction false} CanonMeansTheSame(leq: Leq, value: Json)
    requires Parsed(value)
    ensures Means(Canon(leq, value)) == Means(value)
    decreases value
  {
    match value
    case Arr(items) =>
      forall i | 0 <= i < |items| ensures Means(Canon(leq, items[i])) == Means(items[i]) {
        CanonMeansTheSame(leq, items[i]);
      }
      ItemsMeanTheSame(leq, items);
    case Obj(members) =>
      forall k | k in Keys(members) ensures Means(Canon(leq, Value(members, k))) == Means(Value(members, k)) {
        assert Has(members, k, Value(members, k));
        CanonMeansTheSame(leq, Value(members, k));
      }
      MembersMeanTheSame(leq, members);
    case _ =>
  }

  lemma ItemsMeanTheSame(leq: Leq, items: seq<Json>)
    requires forall i | 0 <= i < |items| :: Means(Canon(leq, items[i])) == Means(items[i])
    ensures Means(Canon(leq, Arr(items))) == Means(Arr(items))
  {
  }

  /** Objects that hold alike values under the same keys mean the same. */
  lemma AlikeMembersMeanTheSame(members: seq<Member>, others: seq<Member>)
    requires Keys(members) == Keys(others)
    requires forall k | k in Keys(members) :: Means(Value(members, k)) == Means(Value(others, k))
    ensures Means(Obj(members)) == Means(Obj(others))
  {
    var x, y := Means(Obj(members)).members, Means(Obj(others)).members;
    assert x.Keys == Keys(members) && y.Keys == Keys(others);
    assert forall k | k in x :: x[k] == Means(Value(members, k));
    assert forall k | k in y :: y[k] == Means(Value(others, k));
    assert x == y;
  }

  lemma MembersMeanTheSame(leq: Leq, members: seq<Member>)
    requires Apart(members)
    requires forall k | k in Keys(members) :: Means(Canon(leq, Value(members, k))) == Means(Value(members, k))
    ensures Means(Canon(leq, Obj(members))) == Means(Obj(members))
  {
    CanonKeepsMembers(leq, members);
    AlikeMembersMeanTheSame(Canon(leq, Obj(members)).members, members);
  }

  /** A canonical member is the canonical form of the member it shows. */
  lemma CanonHasOnly(leq: Leq, members: seq<Member>, k: string, v: Json)
    requires Apart(members) && Has(Canon(leq, Obj(members)).members, k, v)
    ensures k in Keys(members) && v == Canon(leq, Value(members, k))
  {
    var shown, canon := Shown(leq, members), Canon(leq, Obj(members)).members;
    var i :| 0 <= i < |canon| && canon[i] == Member(k, Some(v));
    CanonMember(leq, members, i);
    assert shown[i] in shown && Has(members, k, shown[i].value.value);
    ValueIsTheOnlyOne(members, k, shown[i].value.value);
  }

  lemma CanonHasAll(leq: Leq, members: seq<Member>, k: string)
    requires k in Keys(members)
    ensures k in Keys(Canon(leq, Obj(members)).members)
  {
    var shown, canon := Shown(leq, members), Canon(leq, Obj(members)).members;
    assert Member(k, Some(Value(members, k))) in shown;
    var i :| 0 <= i < |shown| && shown[i] == Member(k, Some(Value(members, k)));
    CanonMember(leq, members, i);
    assert canon[i] in canon && Has(canon, k, canon[i].value.value);
  }

  lemma CanonKeepsMembers(leq: Leq, members: seq<Member>)
    requires Apart(members)
    ensures var canon := Canon(leq, Obj(members)).members;
            && Keys(canon) == Keys(members)
            && (forall k | k in Keys(members) :: Value(canon, k) == Canon(leq, Value(members, k)))
  {
    var canon := Canon(leq, Obj(members)).members;
    forall k ensures k in Keys(canon) <==> k in Keys(members) {
      if k in Keys(members) { CanonHasAll(leq, members, k); }
      if k in Keys(canon) { CanonHasOnly(leq, members, k, Value(canon, k)); }
    }
    forall k | k in Keys(members) ensures Value(canon, k) == Canon(leq, Value(members, k)) {
      CanonHasOnly(leq, members, k, Value(canon, k));
    }
  }

  lemma OneTextOneForm(leq: Leq, x: Json, y: Json)
    requires Parsed(x) && Parsed(y) && Print(leq, x) == Print(leq, y)
    ensures Canon(leq, x) == Canon(leq, y)
  {
    PrintsTheCanonicalForm(leq, x);
    PrintsTheCanonicalForm(leq, y);
    var c, d := Canon(leq, x), Canon(leq, y);
    assert Text(c) + "" == Text(c) && Text(d) + "" == Text(d);
    TextUnique(c, d, "", "");
  }

  /** Whatever the key order, two values with one text mean the same. */
  lemma PrintIsInjective(leq: Leq, x: Json, y: Json)
    requires Parsed(x) && Parsed(y) && Print(leq, x) == Print(leq, y)
    ensures Means(x) == Means(y)
  {
    OneTextOneForm(leq, x, y);
    CanonMeansTheSame(leq, x);
    CanonMeansTheSame(leq, y);
  }

  // --- When one meaning has one text ----------------------------------------------------------------

  /** A key comparison that sorts: total and transitive. */
  ghost predicate Orders(leq: Leq) {
    (forall a, b :: leq(a, b) || leq(b, a)) && (forall a, b, c :: leq(a, b) && leq(b, c) ==> leq(a, c))
  }

  /** It never ties two different keys. */
  ghost predicate NoTies(leq: Leq) { forall a, b :: leq(a, b) && leq(b, a) ==> a == b }

  /** Sorted, and no key twice. */
  ghost predicate Rising(leq: Leq, members: seq<Member>) {
    members == [] ||
    ((forall m | m in members[1..] :: leq(members[0].key, m.key) && m.key != members[0].key)
     && Rising(leq, members[1..]))
  }

  lemma {:induction false} DefinedStaysApart(members: seq<Member>)
    requires Apart(members)
    ensures Apart(Defined(members))
  {
    if members != [] {
      DefinedStaysApart(members[1..]);
      if members[0].value.Some? {
        assert Defined(members)[1..] == Defined(members[1..]);
      } else {
        assert Defined(members) == Defined(members[1..]);
      }
    }
  }

  lemma {:induction false} InsertStaysRising(leq: Leq, m: Member, sorted: seq<Member>)
    requires Orders(leq) && Rising(leq, sorted) && forall n | n in sorted :: n.key != m.key
    ensures Rising(leq, InsertMember(leq, m, sorted))
  {
    if sorted == [] || leq(m.key, sorted[0].key) {
      assert sorted != [] ==> sorted == [sorted[0]] + sorted[1..];
      assert ([m] + sorted)[1..] == sorted;
    } else {
      InsertStaysRising(leq, m, sorted[1..]);
      var rest := InsertMember(leq, m, sorted[1..]);
      forall n | n in rest ensures leq(sorted[0].key, n.key) && n.key != sorted[0].key {
        assert n in multiset(rest);
        assert n == m || n in sorted[1..];
      }
      assert ([sorted[0]] + rest)[1..] == rest;
    }
  }

  lemma {:induction false} SortIsRising(leq: Leq, members: seq<Member>)
    requires Orders(leq) && Apart(members)
    ensures Rising(leq, SortMembers(leq, members))
  {
    if members != [] {
      SortIsRising(leq, members[1..]);
      var sorted := SortMembers(leq, members[1..]);
      forall n | n in sorted ensures n.key != members[0].key {
        assert n in multiset(sorted);
      }
      InsertStaysRising(leq, members[0], sorted);
    }
  }

  function KeySet(members: seq<Member>): (keys: set<string>) { set m | m in members :: m.key }

  lemma TailKeys(leq: Leq, members: seq<Member>)
    requires Rising(leq, members) && members != []
    ensures KeySet(members[1..]) == KeySet(members) - {members[0].key}
    ensures forall k | k in KeySet(members) :: k == members[0].key || leq(members[0].key, k)
  {
    assert members == [members[0]] + members[1..];
    forall k ensures k in KeySet(members[1..]) <==> k in KeySet(members) && k != members[0].key {
      if k in KeySet(members) {
        var m :| m in members && m.key == k;
        assert k != members[0].key ==> m in members[1..];
      }
    }
  }

  /** Without ties, the same keys sort into the same sequence. */
  lemma {:induction false} OneSortedOrder(leq: Leq, xs: seq<Member>, ys: seq<Member>)
    requires NoTies(leq) && Rising(leq, xs) && Rising(leq, ys) && KeySet(xs) == KeySet(ys)
    ensures |xs| == |ys| && forall i | 0 <= i < |xs| :: xs[i].key == ys[i].key
  {
    assert xs != [] ==> xs[0].key in KeySet(xs);
    assert ys != [] ==> ys[0].key in KeySet(ys);
    if xs != [] {
      TailKeys(leq, xs);
      TailKeys(leq, ys);
      OneSortedOrder(leq, xs[1..], ys[1..]);
      forall i | 0 <= i < |xs| ensures xs[i].key == ys[i].key {
        assert i > 0 ==> xs[i] == xs[1..][i - 1] && ys[i] == ys[1..][i - 1];
      }
    }
  }

  lemma ShownIsRising(leq: Leq, members: seq<Member>)
    requires Orders(leq) && Apart(members)
    ensures Rising(leq, Shown(leq, members)) && KeySet(Shown(leq, members)) == Keys(members)
  {
    DefinedStaysApart(members);
    SortIsRising(leq, Defined(members));
    var shown := Shown(leq, members);
    forall k ensures k in KeySet(shown) <==> k in Keys(members) {
      if k in KeySet(shown) {
        var m :| m in shown && m.key == k;
        assert Has(members, k, m.value.value);
      }
      if k in Keys(members) {
        assert Member(k, Some(Value(members, k))) in shown;
      }
    }
  }

  lemma {:induction false} OneMeaningOneForm(leq: Leq, x: Json, y: Json)
    requires Orders(leq) && NoTies(leq) && Parsed(x) && Parsed(y) && Means(x) == Means(y)
    ensures Canon(leq, x) == Canon(leq, y)
    decreases x
  {
    match x
    case Arr(items) =>
      assert |items| == |Means(x).items| == |Means(y).items|;
      forall i | 0 <= i < |items| ensures Canon(leq, items[i]) == Canon(leq, y.items[i]) {
        assert Means(items[i]) == Means(x).items[i] == Means(y.items[i]);
        OneMeaningOneForm(leq, items[i], y.items[i]);
      }
    case Obj(members) =>
      assert Keys(members) == Means(x).members.Keys == Keys(y.members);
      forall k | k in Keys(members) ensures Canon(leq, Value(members, k)) == Canon(leq, Value(y.members, k)) {
        assert Means(x).members[k] == Means(y).members[k];
        assert Has(members, k, Value(members, k)) && Has(y.members, k, Value(y.members, k));
        OneMeaningOneForm(leq, Value(members, k), Value(y.members, k));
      }
      OneFormOfMembers(leq, members, y.members);
    case _ =>
  }

  lemma ShowAlike(leq: Leq, members: seq<Member>, others: seq<Member>)
    requires Orders(leq) && NoTies(leq) && Apart(members) && Apart(others) && Keys(members) == Keys(others)
    ensures var shown, other := Shown(leq, members), Shown(leq, others);
            && |shown| == |other|
            && forall i | 0 <= i < |shown| ::
                 && shown[i].key == other[i].key && shown[i].key in Keys(members)
                 && shown[i].value == Some(Value(members, shown[i].key))
                 && other[i].value == Some(Value(others, shown[i].key))
  {
    var shown, other := Shown(leq, members), Shown(leq, others);
    ShownIsRising(leq, members);
    ShownIsRising(leq, others);
    OneSortedOrder(leq, shown, other);
    forall i | 0 <= i < |shown|
      ensures shown[i].key in Keys(members)
      ensures shown[i].value == Some(Value(members, shown[i].key))
      ensures other[i].value == Some(Value(others, shown[i].key))
    {
      var k := shown[i].key;
      assert shown[i] in shown && other[i] in other;
      assert Has(members, k, shown[i].value.value) && Has(others, k, other[i].value.value);
      ValueIsTheOnlyOne(members, k, shown[i].value.value);
      ValueIsTheOnlyOne(others, k, other[i].value.value);
    }
  }

  /** The canonical form of an object depends only on the keys it shows and the forms of their values. */
  lemma ShownDecidesTheForm(leq: Leq, members: seq<Member>, others: seq<Member>)
    requires |Shown(leq, members)| == |Shown(leq, others)|
    requires forall i | 0 <= i < |Shown(leq, members)| ::
               var m, n := Shown(leq, members)[i], Shown(leq, others)[i];
               m.key == n.key && m.value.Some? && n.value.Some? && Canon(leq, m.value.value) == Canon(leq, n.value.value)
    ensures Canon(leq, Obj(members)) == Canon(leq, Obj(others))
  {
    var c, d := Canon(leq, Obj(members)).members, Canon(leq, Obj(others)).members;
    assert |c| == |d|;
    forall i | 0 <= i < |c| ensures c[i] == d[i] {
      CanonMember(leq, members, i);
      CanonMember(leq, others, i);
    }
    assert c == d;
  }

  lemma OneFormOfMembers(leq: Leq, members: seq<Member>, others: seq<Member>)
    requires Orders(leq) && NoTies(leq) && Apart(members) && Apart(others) && Keys(members) == Keys(others)
    requires forall k | k in Keys(members) :: Canon(leq, Value(members, k)) == Canon(leq, Value(others, k))
    ensures Canon(leq, Obj(members)) == Canon(leq, Obj(others))
  {
    ShowAlike(leq, members, others);
    ShownDecidesTheForm(leq, members, others);
  }

  function Pair(a: string, b: string): seq<Member> { [Member(a, Some(Null)), Member(b, Some(Null))] }

  /** The order of an object's members is no part of its meaning. */
  lemma OrderHasNoMeaning(members: seq<Member>, others: seq<Member>)
    requires Apart(members) && Apart(others) && forall m :: m in members <==> m in others
    ensures Means(Obj(members)) == Means(Obj(others))
  {
    forall k ensures k in Keys(members) <==> k in Keys(others) {
      if k in Keys(members) { assert Has(others, k, Value(members, k)); }
      if k in Keys(others) { assert Has(members, k, Value(others, k)); }
    }
    assert Keys(members) == Keys(others);
    forall k | k in Keys(members) ensures Value(members, k) == Value(others, k) {
      assert Has(others, k, Value(members, k));
      ValueIsTheOnlyOne(others, k, Value(members, k));
    }
    AlikeMembersMeanTheSame(members, others);
  }

  lemma PairIsParsed(a: string, b: string)
    requires a != b
    ensures Apart(Pair(a, b)) && Parsed(Obj(Pair(a, b)))
  {
    assert Pair(a, b)[1..] == [Member(b, Some(Null))] && Pair(a, b)[1..][1..] == [];
  }

  lemma PairShows(leq: Leq, a: string, b: string)
    requires leq(a, b)
    ensures Shown(leq, Pair(a, b)) == Pair(a, b)
  {
    var m, n := Member(a, Some(Null)), Member(b, Some(Null));
    assert Defined([n]) == [n] && Defined([m, n]) == [m] + Defined([n]);
    assert SortMembers(leq, [n]) == [n] && [m, n][1..] == [n];
  }

  lemma TiedFormsDiffer(leq: Leq, a: string, b: string)
    requires leq(a, b) && leq(b, a) && a != b
    ensures Canon(leq, Obj(Pair(a, b))) != Canon(leq, Obj(Pair(b, a)))
  {
    PairShows(leq, a, b);
    PairShows(leq, b, a);
    CanonMember(leq, Pair(a, b), 0);
    CanonMember(leq, Pair(b, a), 0);
  }

  lemma TwoFormsTwoTexts(leq: Leq, x: Json, y: Json)
    requires Parsed(x) && Parsed(y) && Canon(leq, x) != Canon(leq, y)
    ensures Print(leq, x) != Print(leq, y)
  {
    if Print(leq, x) == Print(leq, y) {
      OneTextOneForm(leq, x, y);
    }
  }

  lemma PairsMeanAlike(a: string, b: string)
    requires a != b
    ensures Parsed(Obj(Pair(a, b))) && Parsed(Obj(Pair(b, a))) && Means(Obj(Pair(a, b))) == Means(Obj(Pair(b, a)))
  {
    PairIsParsed(a, b);
    PairIsParsed(b, a);
    OrderHasNoMeaning(Pair(a, b), Pair(b, a));
  }

  /** Two keys the comparison ties: the order they were inserted in shows. */
  lemma TiesShow(leq: Leq, a: string, b: string) returns (x: Json, y: Json)
    requires leq(a, b) && leq(b, a) && a != b
    ensures x == Obj(Pair(a, b)) && y == Obj(Pair(b, a))
    ensures Parsed(x) && Parsed(y) && Means(x) == Means(y)
    ensures Print(leq, x) != Print(leq, y)
  {
    x, y := Obj(Pair(a, b)), Obj(Pair(b, a));
    PairsMeanAlike(a, b);
    TiedFormsDiffer(leq, a, b);
    TwoFormsTwoTexts(leq, x, y);
  }

  /** Text stands for meaning: equal texts exactly when equal up to member order. */
  ghost predicate TextIsMeaning(leq: Leq) {
    forall x, y | Parsed(x) && Parsed(y) :: Print(leq, x) == Print(leq, y) <==> Means(x) == Means(y)
  }

  /** The fingerprint is canonical if and only if the key comparison ties no two different keys. */
  lemma CanonicalUnlessTied(leq: Leq)
    requires Orders(leq)
    ensures TextIsMeaning(leq) <==> NoTies(leq)
  {
    if NoTies(leq) {
      forall x, y | Parsed(x) && Parsed(y) ensures Print(leq, x) == Print(leq, y) <==> Means(x) == Means(y) {
        if Print(leq, x) == Print(leq, y) { PrintIsInjective(leq, x, y); }
        if Means(x) == Means(y) {
          OneMeaningOneForm(leq, x, y);
          PrintsTheCanonicalForm(leq, x);
          PrintsTheCanonicalForm(leq, y);
        }
      }
    } else {
      var a, b :| leq(a, b) && leq(b, a) && a != b;
      var x, y := TiesShow(leq, a, b);
    }
  }
}
