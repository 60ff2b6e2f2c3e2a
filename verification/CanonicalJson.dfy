/**
  Canonical JSON text and the preimage of the argument hash. Text is a sequence of UTF-16 code
  units, as in JavaScript; a finite number is represented by the decimal text it prints as.
*/
module CanonicalJson {
  import opened Prelude

  type Unit = x: nat | x < 0x1_0000
  type Text = seq<Unit>

  const TAB: Unit := 9
  const QUOTE: Unit := 34
  const COMMA: Unit := 44
  const COLON: Unit := 58
  const OPEN_BRACKET: Unit := 91
  const BACKSLASH: Unit := 92
  const CLOSE_BRACKET: Unit := 93
  const LETTER_U: Unit := 117
  const OPEN_BRACE: Unit := 123
  const CLOSE_BRACE: Unit := 125
  const NULL_TEXT: Text := [110, 117, 108, 108]
  const TRUE_TEXT: Text := [116, 114, 117, 101]
  const FALSE_TEXT: Text := [102, 97, 108, 115, 101]
  const CONFIRMATION_ID: Text := [99, 111, 110, 102, 105, 114, 109, 97, 116, 105, 111, 110, 95, 105, 100]

  predicate Digit(u: Unit) { 48 <= u <= 57 }
  predicate NumberUnit(u: Unit) { Digit(u) || u == 43 || u == 45 || u == 46 || u == 101 }

  /** Digits, sign, point and exponent: what Number.prototype.toString prints for a finite number. */
  predicate IsNumberText(t: Text) {
    && t != []
    && (Digit(t[0]) || t[0] == 45)
    && forall i :: 0 <= i < |t| ==> NumberUnit(t[i])
  }
  type NumberText = t: Text | IsNumberText(t) witness [48]

  datatype Json =
    | Undefined
    | Null
    | NonFinite
    | Bool(value: bool)
    | Num(text: NumberText)
    | Str(str: Text)
    | Arr(items: seq<Json>)
    | Obj(fields: seq<Field>)

  datatype Field = Field(key: Text, value: Json)

  /** The fields of a JavaScript object: an ordered list in which no key occurs twice. */
  predicate DistinctKeys(es: seq<Field>) {
    forall i, j :: 0 <= i < j < |es| ==> es[i].key != es[j].key
  }

  predicate IsValue(v: Json) {
    match v
    case Arr(items) => forall x :: x in items ==> IsValue(x)
    case Obj(fields) => DistinctKeys(fields) && forall e :: e in fields ==> IsValue(e.value)
    case _ => true
  }

  /** What it means for two values to be the same JSON value. */
  ghost predicate Same(a: Json, b: Json) {
    match a
    case Undefined => b.Undefined? || b.Null? || b.NonFinite?
    case Null => b.Undefined? || b.Null? || b.NonFinite?
    case NonFinite => b.Undefined? || b.Null? || b.NonFinite?
    case Bool(x) => b == Bool(x)
    case Num(t) => b.Num? && b.text == t
    case Str(t) => b == Str(t)
    case Arr(xs) => b.Arr? && |b.items| == |xs| && forall i :: 0 <= i < |xs| ==> Same(xs[i], b.items[i])
    case Obj(es) =>
      && b.Obj?
      && (forall i :: 0 <= i < |es| && !es[i].value.Undefined? ==> exists j :: SameEntry(es, i, b.fields, j))
      && (forall j :: 0 <= j < |b.fields| && !b.fields[j].value.Undefined? ==> exists i :: SameEntry(es, i, b.fields, j))
  }

  ghost predicate SameEntry(es: seq<Field>, i: int, fs: seq<Field>, j: int) {
    && 0 <= i < |es| && 0 <= j < |fs| && es[i].key == fs[j].key
    && !es[i].value.Undefined? && !fs[j].value.Undefined? && Same(es[i].value, fs[j].value)
  }

  // ---------------------------------------------------------------- printing strings

  predicate High(u: Unit) { 0xD800 <= u <= 0xDBFF }
  predicate Low(u: Unit) { 0xDC00 <= u <= 0xDFFF }

  function Hex(d: nat): Unit
    requires d < 16
  {
    if d < 10 then 48 + d else 87 + d
  }

  function UnicodeEscape(u: Unit): Text {
    [BACKSLASH, LETTER_U, Hex(u / 4096), Hex(u / 256 % 16), Hex(u / 16 % 16), Hex(u % 16)]
  }

  function EscapeUnit(u: Unit): Text {
    if u == QUOTE || u == BACKSLASH then [BACKSLASH, u]
    else if u == 8 then [BACKSLASH, 98]
    else if u == 12 then [BACKSLASH, 102]
    else if u == 10 then [BACKSLASH, 110]
    else if u == 13 then [BACKSLASH, 114]
    else if u == TAB then [BACKSLASH, 116]
    else if u < 32 || High(u) || Low(u) then UnicodeEscape(u)
    else [u]
  }

  predicate StartsWithPair(s: Text) { |s| >= 2 && High(s[0]) && Low(s[1]) }

  function Width(s: Text): nat
    requires s != []
  {
    if StartsWithPair(s) then 2 else 1
  }

  /** JSON.stringify keeps surrogate pairs and escapes a surrogate that stands alone. */
  function EscapeFirst(s: Text): Text
    requires s != []
  {
    if StartsWithPair(s) then s[..2] else EscapeUnit(s[0])
  }

  function Escape(s: Text): Text
    decreases |s|
  {
    if s == [] then [] else EscapeFirst(s) + Escape(s[Width(s)..])
  }

  function Quoted(s: Text): Text { [QUOTE] + Escape(s) + [QUOTE] }

  // ---------------------------------------------------------------- printing values

  /** Code-unit order, the order of `<` on JavaScript strings. */
  predicate Before(a: Text, b: Text) {
    if b == [] then false
    else if a == [] then true
    else if a[0] != b[0] then a[0] < b[0]
    else Before(a[1..], b[1..])
  }

  /** A field of the output: its key and the text of its value. */
  datatype Printed = Printed(key: Text, value: Text)

  function Insert(e: Printed, es: seq<Printed>): seq<Printed> {
    if es == [] then [e]
    else if Before(es[0].key, e.key) then [es[0]] + Insert(e, es[1..])
    else [e] + es
  }

  function SortByKey(es: seq<Printed>): seq<Printed> {
    if es == [] then [] else Insert(es[0], SortByKey(es[1..]))
  }

  function Join(parts: seq<Text>): Text {
    if |parts| == 0 then []
    else if |parts| == 1 then parts[0]
    else parts[0] + [COMMA] + Join(parts[1..])
  }

  function Member(e: Printed): Text { Quoted(e.key) + ([COLON] + e.value) }

  function Members(es: seq<Printed>): (r: seq<Text>)
    ensures |r| == |es| && forall i :: 0 <= i < |r| ==> r[i] == Member(es[i])
  {
    seq(|es|, i requires 0 <= i < |es| => Member(es[i]))
  }

  /** Undefined fields are dropped. Values are printed before the sort, which only looks at keys. */
  function PrintedFields(es: seq<Field>): seq<Printed>
    decreases es, 0
  {
    if es == [] then []
    else if es[0].value.Undefined? then PrintedFields(es[1..])
    else [Printed(es[0].key, Canonical(es[0].value))] + PrintedFields(es[1..])
  }

  function SortedFields(es: seq<Field>): seq<Printed> { SortByKey(PrintedFields(es)) }

  function PrintedItems(xs: seq<Json>): (r: seq<Text>)
    ensures |r| == |xs|
    ensures forall i :: 0 <= i < |xs| ==> r[i] == Canonical(xs[i])
  {
    if xs == [] then [] else [Canonical(xs[0])] + PrintedItems(xs[1..])
  }

  function Canonical(v: Json): Text {
    match v
    case Undefined => NULL_TEXT
    case Null => NULL_TEXT
    case NonFinite => NULL_TEXT
    case Bool(b) => if b then TRUE_TEXT else FALSE_TEXT
    case Num(t) => t
    case Str(s) => Quoted(s)
    case Arr(xs) => [OPEN_BRACKET] + Join(PrintedItems(xs)) + [CLOSE_BRACKET]
    case Obj(es) => [OPEN_BRACE] + Join(Members(SortedFields(es))) + [CLOSE_BRACE]
  }

  /** The text that computeArgsHash digests: the input without confirmation_id, wrapped with the scope if there is one. */
  function Rest(input: seq<Field>): seq<Field> {
    if input == [] then []
    else (if input[0].key == CONFIRMATION_ID then [] else [input[0]]) + Rest(input[1..])
  }

  function HashInput(input: seq<Field>, scope: Option<Text>): Json {
    match scope
    case None => Obj(Rest(input))
    case Some(s) => Arr([Str(s), Obj(Rest(input))])
  }

  function Preimage(input: seq<Field>, scope: Option<Text>): Text {
    Canonical(HashInput(input, scope))
  }

  // ---------------------------------------------------------------- strings read back uniquely

  lemma {:induction false} EscapedUnitReads(u: Unit, v: Unit, x: Text, y: Text)
    requires EscapeUnit(u) + x == EscapeUnit(v) + y
    ensures u == v && x == y
  {
    var s, t := EscapeUnit(u) + x, EscapeUnit(v) + y;
    assert s[0] == t[0] && EscapeUnit(u)[0] == EscapeUnit(v)[0];
    if EscapeUnit(u)[0] == BACKSLASH {
      assert s[1] == EscapeUnit(u)[1] && t[1] == EscapeUnit(v)[1];
      if s[1] == LETTER_U {
        assert EscapeUnit(u) == s[..6] && EscapeUnit(v) == t[..6];
        UnicodeEscapeReads(u, v);
      }
    }
    assert u == v;
    assert x == s[|EscapeUnit(u)|..] && y == t[|EscapeUnit(v)|..];
  }

  lemma {:induction false} UnicodeEscapeReads(u: Unit, v: Unit)
    requires UnicodeEscape(u) == UnicodeEscape(v)
    ensures u == v
  {
    var s, t := UnicodeEscape(u), UnicodeEscape(v);
    assert s[2] == t[2] && s[3] == t[3] && s[4] == t[4] && s[5] == t[5];
    HexDigits(u);
    HexDigits(v);
  }

  lemma {:induction false} HexDigits(u: Unit)
    ensures u == 4096 * (u / 4096) + 256 * (u / 256 % 16) + 16 * (u / 16 % 16) + u % 16
  {
    assert u == 16 * (u / 16) + u % 16;
    assert u / 16 == 16 * (u / 256) + u / 16 % 16;
    assert u / 256 == 16 * (u / 4096) + u / 256 % 16;
  }

  lemma {:induction false} FirstReads(s: Text, t: Text, x: Text, y: Text)
    requires s != [] && t != [] && EscapeFirst(s) + x == EscapeFirst(t) + y
    ensures Width(s) == Width(t) && s[..Width(s)] == t[..Width(t)] && x == y
  {
    var l, r := EscapeFirst(s) + x, EscapeFirst(t) + y;
    assert l[0] == EscapeFirst(s)[0] && r[0] == EscapeFirst(t)[0];
    if StartsWithPair(s) {
      assert l[1] == s[1] && r[1] == t[1];
      assert x == l[2..] && y == r[2..];
    } else {
      EscapedUnitReads(s[0], t[0], x, y);
    }
  }

  /** An escaped string, its closing quote and what follows. */
  function EscapeThen(s: Text, x: Text): Text
    decreases |s|
  {
    if s == [] then [QUOTE] + x else EscapeFirst(s) + EscapeThen(s[Width(s)..], x)
  }

  lemma {:induction false} EscapeThenIs(s: Text, x: Text)
    ensures EscapeThen(s, x) == Escape(s) + [QUOTE] + x
    decreases |s|
  {
    if s != [] { EscapeThenIs(s[Width(s)..], x); }
  }

  lemma {:induction false} EscapeThenFirst(s: Text, x: Text)
    ensures EscapeThen(s, x) != []
    ensures EscapeThen(s, x)[0] == QUOTE <==> s == []
  {
    if s != [] { assert EscapeFirst(s)[0] != QUOTE; }
  }

  lemma {:induction false} EscapedReads(s: Text, t: Text, x: Text, y: Text)
    requires EscapeThen(s, x) == EscapeThen(t, y)
    ensures s == t && x == y
    decreases |s|
  {
    EscapeThenFirst(s, x);
    EscapeThenFirst(t, y);
    if s == [] {
      assert x == EscapeThen(s, x)[1..] && y == EscapeThen(t, y)[1..];
    } else {
      FirstReads(s, t, EscapeThen(s[Width(s)..], x), EscapeThen(t[Width(t)..], y));
      EscapedReads(s[Width(s)..], t[Width(t)..], x, y);
      assert s == s[..Width(s)] + s[Width(s)..] && t == t[..Width(t)] + t[Width(t)..];
    }
  }

  lemma {:induction false} QuotedThen(s: Text, x: Text)
    ensures (Quoted(s) + x)[1..] == EscapeThen(s, x)
  {
    EscapeThenIs(s, x);
    assert Quoted(s) + x == [QUOTE] + (Escape(s) + [QUOTE] + x);
  }

  lemma {:induction false} QuotedReads(s: Text, t: Text, x: Text, y: Text)
    requires Quoted(s) + x == Quoted(t) + y
    ensures s == t && x == y
  {
    QuotedThen(s, x);
    QuotedThen(t, y);
    EscapedReads(s, t, x, y);
  }

  // ---------------------------------------------------------------- values read back uniquely

  /** What can follow a value inside a larger text. */
  predicate Stops(x: Text) {
    x == [] || x[0] == COMMA || x[0] == CLOSE_BRACKET || x[0] == CLOSE_BRACE
  }

  /** `p` ends where it says it does, whatever follows. */
  ghost predicate Delimited(p: Text, q: Text) {
    forall x, y :: Stops(x) && Stops(y) && p + x == q + y ==> p == q && x == y
  }

  lemma {:induction false} FirstUnit(v: Json)
    ensures Canonical(v) != []
    ensures var c := Canonical(v)[0];
      && (c == 110 <==> v.Undefined? || v.Null? || v.NonFinite?)
      && (c == 116 <==> v == Bool(true))
      && (c == 102 <==> v == Bool(false))
      && (Digit(c) || c == 45 <==> v.Num?)
      && (c == QUOTE <==> v.Str?)
      && (c == OPEN_BRACKET <==> v.Arr?)
      && (c == OPEN_BRACE <==> v.Obj?)
  {
  }

  lemma {:induction false} NumbersDelimited(p: Text, q: Text, x: Text, y: Text)
    requires IsNumberText(p) && IsNumberText(q) && Stops(x) && Stops(y) && p + x == q + y
    ensures p == q && x == y
  {
    var l := p + x;
    assert forall k :: 0 <= k < |p| ==> l[k] == p[k];
    assert forall k :: 0 <= k < |q| ==> l[k] == q[k];
    assert x != [] ==> l[|p|] == x[0];
    assert y != [] ==> l[|q|] == y[0];
    assert |p| == |q|;
    assert p == l[..|p|] && x == l[|p|..] && q == l[..|q|] && y == l[|q|..];
  }

  /** The parts of a list, its closing bracket and what follows. */
  function ListThen(ps: seq<Text>, close: Unit, x: Text): Text
    decreases |ps|, 1
  {
    if ps == [] then [close] + x else ps[0] + AfterPart(ps, close, x)
  }

  function AfterPart(ps: seq<Text>, close: Unit, x: Text): Text
    requires ps != []
    decreases |ps|, 0
  {
    if |ps| == 1 then [close] + x else [COMMA] + ListThen(ps[1..], close, x)
  }

  lemma {:induction false} ListThenIs(ps: seq<Text>, close: Unit, x: Text)
    ensures ListThen(ps, close, x) == Join(ps) + [close] + x
  {
    if |ps| > 1 { ListThenIs(ps[1..], close, x); }
  }

  predicate Part(p: Text) { p != [] && !Stops(p) }

  /** Lists of delimited parts, closed by a bracket that starts no part, read back part by part. */
  lemma {:induction false} ListReads(ps: seq<Text>, qs: seq<Text>, close: Unit, x: Text, y: Text)
    requires close == CLOSE_BRACKET || close == CLOSE_BRACE
    requires forall i :: 0 <= i < |ps| ==> Part(ps[i])
    requires forall i :: 0 <= i < |qs| ==> Part(qs[i])
    requires forall i :: 0 <= i < |ps| && i < |qs| ==> Delimited(ps[i], qs[i])
    requires ListThen(ps, close, x) == ListThen(qs, close, y)
    ensures ps == qs && x == y
    decreases |ps|
  {
    assert ListThen(ps, close, x)[0] == ListThen(qs, close, y)[0];
    if ps == [] || qs == [] {
      assert ps == qs;
      assert x == ListThen(ps, close, x)[1..] && y == ListThen(qs, close, y)[1..];
    } else {
      var u, v := AfterPart(ps, close, x), AfterPart(qs, close, y);
      assert Delimited(ps[0], qs[0]) && Stops(u) && Stops(v);
      assert u == v && u[0] == v[0];
      AfterReads(ps, qs, close, x, y);
    }
  }

  lemma {:induction false} AfterReads(ps: seq<Text>, qs: seq<Text>, close: Unit, x: Text, y: Text)
    requires close == CLOSE_BRACKET || close == CLOSE_BRACE
    requires forall i :: 0 <= i < |ps| ==> Part(ps[i])
    requires forall i :: 0 <= i < |qs| ==> Part(qs[i])
    requires forall i :: 0 <= i < |ps| && i < |qs| ==> Delimited(ps[i], qs[i])
    requires ps != [] && qs != [] && ps[0] == qs[0] && AfterPart(ps, close, x) == AfterPart(qs, close, y)
    ensures ps == qs && x == y
    decreases |ps|, 0
  {
    var u, v := AfterPart(ps, close, x), AfterPart(qs, close, y);
    assert u[0] == v[0];
    if |ps| == 1 {
      assert x == u[1..] && y == v[1..];
    } else {
      assert u[1..] == ListThen(ps[1..], close, x) && v[1..] == ListThen(qs[1..], close, y);
      ListReads(ps[1..], qs[1..], close, x, y);
      assert ps == [ps[0]] + ps[1..] && qs == [qs[0]] + qs[1..];
    }
  }

  ghost predicate EntryPrints(es: seq<Field>, i: int, p: Printed) {
    0 <= i < |es| && !es[i].value.Undefined? && p == Printed(es[i].key, Canonical(es[i].value))
  }

  /** `p` was printed from a live field. */
  ghost predicate PrintedIn(es: seq<Field>, p: Printed) {
    exists i :: EntryPrints(es, i, p)
  }

  lemma {:induction false} PrintedInTail(es: seq<Field>, p: Printed)
    requires es != []
    ensures PrintedIn(es, p) <==> EntryPrints(es, 0, p) || PrintedIn(es[1..], p)
  {
    if PrintedIn(es[1..], p) {
      var i :| EntryPrints(es[1..], i, p);
      assert EntryPrints(es, i + 1, p);
    }
    if PrintedIn(es, p) {
      var i :| EntryPrints(es, i, p);
      if i > 0 { assert EntryPrints(es[1..], i - 1, p); }
    }
  }

  lemma {:induction false} PrintedEntries(es: seq<Field>, p: Printed)
    ensures p in PrintedFields(es) <==> PrintedIn(es, p)
  {
    if es != [] {
      PrintedEntries(es[1..], p);
      PrintedInTail(es, p);
    }
  }

  lemma {:induction false} InsertKeeps(e: Printed, es: seq<Printed>)
    ensures multiset(Insert(e, es)) == multiset(es) + multiset{e}
  {
    if es != [] {
      assert es == [es[0]] + es[1..];
      if Before(es[0].key, e.key) { InsertKeeps(e, es[1..]); }
    }
  }

  lemma {:induction false} SortKeeps(es: seq<Printed>)
    ensures multiset(SortByKey(es)) == multiset(es)
    ensures forall e :: e in SortByKey(es) <==> e in es
  {
    if es != [] {
      SortKeeps(es[1..]);
      InsertKeeps(es[0], SortByKey(es[1..]));
      assert es == [es[0]] + es[1..];
    }
    forall e ensures e in SortByKey(es) <==> e in es {
      assert e in SortByKey(es) <==> e in multiset(SortByKey(es));
      assert e in es <==> e in multiset(es);
    }
  }

  lemma {:induction false} SortedPrinted(es: seq<Field>, p: Printed)
    ensures p in SortedFields(es) <==> PrintedIn(es, p)
  {
    PrintedEntries(es, p);
    SortKeeps(PrintedFields(es));
  }

  lemma {:induction false} MemberReads(p: Printed, q: Printed, x: Text, y: Text)
    requires Member(p) + x == Member(q) + y
    ensures p.key == q.key && p.value + x == q.value + y
  {
    var u, v := [COLON] + p.value + x, [COLON] + q.value + y;
    assert Member(p) + x == Quoted(p.key) + u && Member(q) + y == Quoted(q.key) + v;
    QuotedReads(p.key, q.key, u, v);
    assert u[1..] == p.value + x && v[1..] == q.value + y;
  }

  lemma {:induction false} MembersDelimited(p: Printed, q: Printed)
    requires Delimited(p.value, q.value)
    ensures Delimited(Member(p), Member(q))
  {
    forall x, y | Stops(x) && Stops(y) && Member(p) + x == Member(q) + y
      ensures Member(p) == Member(q) && x == y
    {
      MemberReads(p, q, x, y);
    }
  }

  lemma {:induction false} MembersSame(ps: seq<Printed>, qs: seq<Printed>)
    requires Members(ps) == Members(qs)
    ensures ps == qs
  {
    forall i | 0 <= i < |ps| ensures ps[i] == qs[i] {
      assert Member(ps[i]) == Members(ps)[i] == Members(qs)[i] == Member(qs[i]);
      assert Member(ps[i]) + [] == Member(ps[i]) && Member(qs[i]) + [] == Member(qs[i]);
      MemberReads(ps[i], qs[i], [], []);
      assert ps[i].value + [] == ps[i].value && qs[i].value + [] == qs[i].value;
    }
  }

  lemma {:induction false} ValuesDelimited(a: Json, b: Json)
    ensures Delimited(Canonical(a), Canonical(b))
    decreases a
  {
    forall x, y | Stops(x) && Stops(y) && Canonical(a) + x == Canonical(b) + y
      ensures Canonical(a) == Canonical(b) && x == y
    {
      ValueReads(a, b, x, y);
    }
  }

  lemma {:induction false} ValueReads(a: Json, b: Json, x: Text, y: Text)
    requires Stops(x) && Stops(y) && Canonical(a) + x == Canonical(b) + y
    ensures Canonical(a) == Canonical(b) && x == y
    decreases a, 0
  {
    FirstUnit(a);
    FirstUnit(b);
    var l, r := Canonical(a) + x, Canonical(b) + y;
    assert l[0] == r[0];
    match a
    case Num(t) => NumbersDelimited(t, b.text, x, y);
    case Str(s) => QuotedReads(s, b.str, x, y);
    case Arr(xs) =>
      Unwrap(OPEN_BRACKET, Join(PrintedItems(xs)), Join(PrintedItems(b.items)), CLOSE_BRACKET, x, y);
      ItemsRead(xs, b.items, x, y);
    case Obj(es) =>
      Unwrap(OPEN_BRACE, Join(Members(SortedFields(es))), Join(Members(SortedFields(b.fields))), CLOSE_BRACE, x, y);
      FieldsRead(es, b.fields, x, y);
    case _ =>
      assert Canonical(b) == Canonical(a);
      assert x == l[|Canonical(a)|..] && y == r[|Canonical(a)|..];
  }

  lemma {:induction false} Unwrap(open: Unit, p: Text, q: Text, close: Unit, x: Text, y: Text)
    requires [open] + p + [close] + x == [open] + q + [close] + y
    ensures p + [close] + x == q + [close] + y
  {
    assert ([open] + p + [close] + x)[1..] == p + [close] + x;
    assert ([open] + q + [close] + y)[1..] == q + [close] + y;
  }

  lemma {:induction false} ItemsRead(xs: seq<Json>, ys: seq<Json>, x: Text, y: Text)
    requires Join(PrintedItems(xs)) + [CLOSE_BRACKET] + x == Join(PrintedItems(ys)) + [CLOSE_BRACKET] + y
    ensures PrintedItems(xs) == PrintedItems(ys) && x == y
    decreases xs, 0
  {
    var ps, qs := PrintedItems(xs), PrintedItems(ys);
    forall i | 0 <= i < |ps| ensures Part(ps[i]) { FirstUnit(xs[i]); }
    forall i | 0 <= i < |qs| ensures Part(qs[i]) { FirstUnit(ys[i]); }
    forall i | 0 <= i < |ps| && i < |qs| ensures Delimited(ps[i], qs[i]) { ValuesDelimited(xs[i], ys[i]); }
    ListThenIs(ps, CLOSE_BRACKET, x);
    ListThenIs(qs, CLOSE_BRACKET, y);
    ListReads(ps, qs, CLOSE_BRACKET, x, y);
  }

  lemma {:induction false} FieldsRead(es: seq<Field>, fs: seq<Field>, x: Text, y: Text)
    requires Join(Members(SortedFields(es))) + [CLOSE_BRACE] + x == Join(Members(SortedFields(fs))) + [CLOSE_BRACE] + y
    ensures SortedFields(es) == SortedFields(fs) && x == y
    decreases es, 0
  {
    var ps, qs := SortedFields(es), SortedFields(fs);
    var ms, ns := Members(ps), Members(qs);
    forall i | 0 <= i < |ps| && i < |qs| ensures Delimited(ms[i], ns[i]) {
      assert ps[i] in ps && qs[i] in qs;
      SortedPrinted(es, ps[i]);
      SortedPrinted(fs, qs[i]);
      var j :| EntryPrints(es, j, ps[i]);
      var k :| EntryPrints(fs, k, qs[i]);
      ValuesDelimited(es[j].value, fs[k].value);
      MembersDelimited(ps[i], qs[i]);
    }
    ListThenIs(ms, CLOSE_BRACE, x);
    ListThenIs(ns, CLOSE_BRACE, y);
    ListReads(ms, ns, CLOSE_BRACE, x, y);
    MembersSame(ps, qs);
  }

  // ---------------------------------------------------------------- the same text means the same value

  lemma {:induction false} SameTextSameValue(a: Json, b: Json)
    requires Canonical(a) == Canonical(b)
    ensures Same(a, b)
    decreases a
  {
    FirstUnit(a);
    FirstUnit(b);
    assert Canonical(a) + [] == Canonical(a) && Canonical(b) + [] == Canonical(b);
    match a
    case Str(s) => QuotedReads(s, b.str, [], []);
    case Arr(xs) =>
      Unwrap(OPEN_BRACKET, Join(PrintedItems(xs)), Join(PrintedItems(b.items)), CLOSE_BRACKET, [], []);
      ItemsRead(xs, b.items, [], []);
      forall i | 0 <= i < |xs| ensures Same(xs[i], b.items[i]) {
        assert PrintedItems(xs)[i] == PrintedItems(b.items)[i];
        SameTextSameValue(xs[i], b.items[i]);
      }
    case Obj(es) =>
      Unwrap(OPEN_BRACE, Join(Members(SortedFields(es))), Join(Members(SortedFields(b.fields))), CLOSE_BRACE, [], []);
      FieldsRead(es, b.fields, [], []);
      SameFields(es, b.fields);
    case _ =>
  }

  lemma {:induction false} SameFields(es: seq<Field>, fs: seq<Field>)
    requires SortedFields(es) == SortedFields(fs)
    ensures Same(Obj(es), Obj(fs))
    decreases es, 0
  {
    forall i | 0 <= i < |es| && !es[i].value.Undefined? ensures exists j :: SameEntry(es, i, fs, j) {
      var p := Printed(es[i].key, Canonical(es[i].value));
      assert EntryPrints(es, i, p);
      SortedPrinted(es, p);
      SortedPrinted(fs, p);
      var j :| EntryPrints(fs, j, p);
      SameTextSameValue(es[i].value, fs[j].value);
      assert SameEntry(es, i, fs, j);
    }
    forall j | 0 <= j < |fs| && !fs[j].value.Undefined? ensures exists i :: SameEntry(es, i, fs, j) {
      var p := Printed(fs[j].key, Canonical(fs[j].value));
      assert EntryPrints(fs, j, p);
      SortedPrinted(es, p);
      SortedPrinted(fs, p);
      var i :| EntryPrints(es, i, p);
      SameTextSameValue(es[i].value, fs[j].value);
      assert SameEntry(es, i, fs, j);
    }
  }

  // ---------------------------------------------------------------- the same value prints the same text

  lemma {:induction false} BeforeIsOrder(a: Text, b: Text)
    ensures Before(a, b) ==> a != b && !Before(b, a)
    ensures a != b ==> Before(a, b) || Before(b, a)
    decreases |a|
  {
    if a != [] && b != [] {
      BeforeIsOrder(a[1..], b[1..]);
      assert a == [a[0]] + a[1..] && b == [b[0]] + b[1..];
    }
  }

  lemma {:induction false} BeforeTransitive(a: Text, b: Text, c: Text)
    requires Before(a, b) && Before(b, c)
    ensures Before(a, c)
    decreases |a|
  {
    if a != [] && a[0] == b[0] && b[0] == c[0] { BeforeTransitive(a[1..], b[1..], c[1..]); }
  }

  predicate DistinctPrinted(es: seq<Printed>) {
    forall i, j :: 0 <= i < j < |es| ==> es[i].key != es[j].key
  }

  ghost predicate Ascending(es: seq<Printed>) {
    forall i, j :: 0 <= i < j < |es| ==> Before(es[i].key, es[j].key)
  }

  lemma {:induction false} InsertAscending(e: Printed, es: seq<Printed>)
    requires Ascending(es) && forall d :: d in es ==> d.key != e.key
    ensures Ascending(Insert(e, es))
  {
    if es != [] {
      BeforeIsOrder(es[0].key, e.key);
      if Before(es[0].key, e.key) {
        InsertAscending(e, es[1..]);
        InsertKeeps(e, es[1..]);
        var r := Insert(e, es[1..]);
        forall i | 0 <= i < |r| ensures Before(es[0].key, r[i].key) {
          assert r[i] in multiset(r);
          if r[i] != e {
            assert r[i] in es[1..];
          }
        }
      } else {
        forall i | 0 <= i < |es| ensures Before(e.key, es[i].key) {
          if i > 0 { BeforeTransitive(e.key, es[0].key, es[i].key); }
        }
      }
    }
  }

  lemma {:induction false} SortAscending(es: seq<Printed>)
    requires DistinctPrinted(es)
    ensures Ascending(SortByKey(es))
  {
    if es != [] {
      SortAscending(es[1..]);
      SortKeeps(es[1..]);
      forall d | d in SortByKey(es[1..]) ensures d.key != es[0].key {
        var i :| 0 <= i < |es[1..]| && es[1..][i] == d;
        assert es[i + 1] == d;
      }
      InsertAscending(es[0], SortByKey(es[1..]));
    }
  }

  lemma {:induction false} FirstIn(fs: seq<Printed>)
    requires fs != []
    ensures fs[0] in fs
  {
  }

  /** A set of pairs has only one ascending listing. */
  lemma {:induction false} AscendingUnique(es: seq<Printed>, fs: seq<Printed>)
    requires Ascending(es) && Ascending(fs)
    requires forall e :: e in es <==> e in fs
    ensures es == fs
    decreases |es|
  {
    if es == [] {
      if fs != [] { FirstIn(fs); }
    } else {
      assert es[0] in fs && fs != [] && fs[0] in es;
      var i :| 0 <= i < |fs| && fs[i] == es[0];
      var j :| 0 <= j < |es| && es[j] == fs[0];
      if i > 0 && j > 0 {
        BeforeIsOrder(fs[0].key, es[0].key);
        assert false;
      }
      BeforeIsOrder(es[0].key, es[0].key);
      assert es[0] == fs[0];
      TailMembers(es, fs);
      TailMembers(fs, es);
      AscendingUnique(es[1..], fs[1..]);
    }
  }

  lemma {:induction false} TailMembers(es: seq<Printed>, fs: seq<Printed>)
    requires es != [] && fs != [] && es[0] == fs[0] && Ascending(es)
    requires forall e :: e in es ==> e in fs
    ensures forall e :: e in es[1..] ==> e in fs[1..]
  {
    forall e | e in es[1..] ensures e in fs[1..] {
      var i :| 0 <= i < |es[1..]| && es[1..][i] == e;
      assert Before(es[0].key, es[i + 1].key);
      BeforeIsOrder(es[0].key, es[i + 1].key);
      assert e != fs[0] && e in fs;
      assert fs == [fs[0]] + fs[1..];
    }
  }

  lemma {:induction false} PrintedDistinct(es: seq<Field>)
    requires DistinctKeys(es)
    ensures DistinctPrinted(PrintedFields(es))
  {
    if es != [] {
      PrintedDistinct(es[1..]);
      forall p | p in PrintedFields(es[1..]) ensures p.key != es[0].key {
        PrintedEntries(es[1..], p);
        var i :| EntryPrints(es[1..], i, p);
        assert es[1..][i] == es[i + 1];
      }
    }
  }

  lemma {:induction false} SortedAscending(es: seq<Field>)
    requires DistinctKeys(es)
    ensures Ascending(SortedFields(es))
  {
    PrintedDistinct(es);
    SortAscending(PrintedFields(es));
  }

  lemma {:induction false} SameValueSameText(a: Json, b: Json)
    requires IsValue(a) && IsValue(b) && Same(a, b)
    ensures Canonical(a) == Canonical(b)
    decreases a
  {
    match a
    case Arr(xs) =>
      forall i | 0 <= i < |xs| ensures PrintedItems(xs)[i] == PrintedItems(b.items)[i] {
        SameValueSameText(xs[i], b.items[i]);
      }
      assert PrintedItems(xs) == PrintedItems(b.items);
    case Obj(es) =>
      SamePrinted(es, b.fields);
      SortedAscending(es);
      SortedAscending(b.fields);
      AscendingUnique(SortedFields(es), SortedFields(b.fields));
    case _ =>
  }

  lemma {:induction false} SamePrinted(es: seq<Field>, fs: seq<Field>)
    requires IsValue(Obj(es)) && IsValue(Obj(fs)) && Same(Obj(es), Obj(fs))
    ensures forall p :: p in SortedFields(es) <==> p in SortedFields(fs)
    decreases es, 0
  {
    forall p ensures p in SortedFields(es) <==> p in SortedFields(fs) {
      SortedPrinted(es, p);
      SortedPrinted(fs, p);
      if PrintedIn(es, p) {
        var i :| EntryPrints(es, i, p);
        var j :| SameEntry(es, i, fs, j);
        assert es[i] in es && fs[j] in fs;
        SameValueSameText(es[i].value, fs[j].value);
        assert EntryPrints(fs, j, p);
      }
      if PrintedIn(fs, p) {
        var j :| EntryPrints(fs, j, p);
        var i :| SameEntry(es, i, fs, j);
        assert es[i] in es && fs[j] in fs;
        SameValueSameText(es[i].value, fs[j].value);
        assert EntryPrints(es, i, p);
      }
    }
  }

  /** Main theorem: the canonical text identifies the value, and nothing but the value. */
  lemma {:induction false} CanonicalIffSame(a: Json, b: Json)
    requires IsValue(a) && IsValue(b)
    ensures Canonical(a) == Canonical(b) <==> Same(a, b)
  {
    if Canonical(a) == Canonical(b) { SameTextSameValue(a, b); }
    if Same(a, b) { SameValueSameText(a, b); }
  }

  // ---------------------------------------------------------------- hash preimages

  lemma {:induction false} RestIsValue(input: seq<Field>)
    requires IsValue(Obj(input))
    ensures IsValue(Obj(Rest(input)))
    ensures forall e :: e in Rest(input) <==> e in input && e.key != CONFIRMATION_ID
  {
    if input != [] {
      assert forall e :: e in input[1..] ==> e in input;
      RestIsValue(input[1..]);
      assert forall e :: e in input[1..] ==> e.key != input[0].key;
      assert input == [input[0]] + input[1..];
    }
  }

  /** Two calls share a preimage exactly when they have the same scope and, the confirmation id
      aside, the same arguments; in particular a scoped and an unscoped call never do. */
  lemma {:induction false} PreimagesAgree(in1: seq<Field>, scope1: Option<Text>, in2: seq<Field>, scope2: Option<Text>)
    requires IsValue(Obj(in1)) && IsValue(Obj(in2))
    ensures Preimage(in1, scope1) == Preimage(in2, scope2)
      <==> scope1 == scope2 && Same(Obj(Rest(in1)), Obj(Rest(in2)))
  {
    RestIsValue(in1);
    RestIsValue(in2);
    CanonicalIffSame(HashInput(in1, scope1), HashInput(in2, scope2));
    if scope1.Some? && scope2.Some? {
      PairsSame(Str(scope1.value), Obj(Rest(in1)), Str(scope2.value), Obj(Rest(in2)));
    }
  }

  lemma {:induction false} PairsSame(a: Json, b: Json, c: Json, d: Json)
    ensures Same(Arr([a, b]), Arr([c, d])) <==> Same(a, c) && Same(b, d)
  {
    var xs, ys := [a, b], [c, d];
    assert Same(Arr(xs), Arr(ys)) <==> Same(xs[0], ys[0]) && Same(xs[1], ys[1]);
  }

  // ---------------------------------------------------------------- the text survives UTF-8

  /** Every surrogate stands in a pair, so encoding as UTF-8 replaces nothing. */
  predicate WellPaired(t: Text) {
    if t == [] then true
    else if 0xD800 <= t[0] <= 0xDBFF then |t| >= 2 && 0xDC00 <= t[1] <= 0xDFFF && WellPaired(t[2..])
    else !(0xDC00 <= t[0] <= 0xDFFF) && WellPaired(t[1..])
  }

  lemma {:induction false} PairedConcat(s: Text, t: Text)
    requires WellPaired(s) && WellPaired(t)
    ensures WellPaired(s + t)
    decreases |s|
  {
    if s == [] {
      assert s + t == t;
    } else {
      var n := if High(s[0]) then 2 else 1;
      PairedConcat(s[n..], t);
      assert (s + t)[n..] == s[n..] + t;
    }
  }

  lemma {:induction false} PlainPaired(t: Text)
    requires forall i :: 0 <= i < |t| ==> t[i] < 0xD800
    ensures WellPaired(t)
  {
    if t != [] { PlainPaired(t[1..]); }
  }

  lemma {:induction false} EscapePaired(s: Text)
    ensures WellPaired(Escape(s))
    decreases |s|
  {
    if s != [] {
      EscapePaired(s[Width(s)..]);
      assert WellPaired(EscapeFirst(s)) by {
        if !StartsWithPair(s) && EscapeUnit(s[0])[0] == BACKSLASH { PlainPaired(EscapeUnit(s[0])); }
      }
      PairedConcat(EscapeFirst(s), Escape(s[Width(s)..]));
    }
  }

  lemma {:induction false} WrapPaired(open: Unit, t: Text, close: Unit)
    requires WellPaired(t) && open < 0xD800 && close < 0xD800
    ensures WellPaired([open] + t + [close])
  {
    PlainPaired([open]);
    PlainPaired([close]);
    PairedConcat([open], t);
    PairedConcat([open] + t, [close]);
  }

  lemma {:induction false} JoinPaired(ps: seq<Text>)
    requires forall p :: p in ps ==> WellPaired(p)
    ensures WellPaired(Join(ps))
  {
    if |ps| > 1 {
      JoinPaired(ps[1..]);
      PlainPaired([COMMA]);
      PairedConcat(ps[0], [COMMA]);
      PairedConcat(ps[0] + [COMMA], Join(ps[1..]));
    }
  }

  lemma {:induction false} CanonicalIsWellPaired(v: Json)
    ensures WellPaired(Canonical(v))
    decreases v
  {
    match v
    case Num(t) =>
      forall i | 0 <= i < |t| ensures t[i] < 0xD800 { assert t[i] in t; }
      PlainPaired(t);
    case Str(s) =>
      EscapePaired(s);
      WrapPaired(QUOTE, Escape(s), QUOTE);
    case Arr(xs) =>
      forall p | p in PrintedItems(xs) ensures WellPaired(p) {
        var i :| 0 <= i < |xs| && p == Canonical(xs[i]);
        CanonicalIsWellPaired(xs[i]);
      }
      JoinPaired(PrintedItems(xs));
      WrapPaired(OPEN_BRACKET, Join(PrintedItems(xs)), CLOSE_BRACKET);
    case Obj(es) =>
      FieldsPaired(es);
    case _ => PlainPaired(Canonical(v));
  }

  lemma {:induction false} FieldsPaired(es: seq<Field>)
    ensures WellPaired([OPEN_BRACE] + Join(Members(SortedFields(es))) + [CLOSE_BRACE])
    decreases es, 0
  {
    var ps := SortedFields(es);
    forall m | m in Members(ps) ensures WellPaired(m) {
      var k :| 0 <= k < |ps| && m == Member(ps[k]);
      assert ps[k] in ps;
      SortedPrinted(es, ps[k]);
      var i :| EntryPrints(es, i, ps[k]);
      CanonicalIsWellPaired(es[i].value);
      MemberPaired(ps[k]);
    }
    JoinPaired(Members(ps));
    WrapPaired(OPEN_BRACE, Join(Members(ps)), CLOSE_BRACE);
  }

  lemma {:induction false} MemberPaired(p: Printed)
    requires WellPaired(p.value)
    ensures WellPaired(Member(p))
  {
    EscapePaired(p.key);
    WrapPaired(QUOTE, Escape(p.key), QUOTE);
    PlainPaired([COLON]);
    PairedConcat([COLON], p.value);
    PairedConcat(Quoted(p.key), [COLON] + p.value);
  }
}
