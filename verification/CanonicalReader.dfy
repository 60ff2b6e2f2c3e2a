/** A reader of JSON text after RFC 8259, and what it finds in canonical text. */
module CanonicalReader {
  import opened Prelude
  import opened CanonicalJson

  // ---------------------------------------------------------------- reading strings (section 7)

  datatype ReadUnit = ReadUnit(unit: Unit, rest: Text)
  datatype ReadText = ReadText(text: Text, rest: Text)

  function HexValue(u: Unit): Option<nat>
    ensures HexValue(u).Some? ==> HexValue(u).value < 16
  {
    if 48 <= u <= 57 then Some(u - 48)
    else if 97 <= u <= 102 then Some(u - 87)
    else if 65 <= u <= 70 then Some(u - 55)
    else None
  }

  /** The unit after a backslash, unless that is a u. */
  function Unescaped(u: Unit): Option<Unit> {
    if u == 34 || u == 92 || u == 47 then Some(u)
    else if u == 98 then Some(8)
    else if u == 102 then Some(12)
    else if u == 110 then Some(10)
    else if u == 114 then Some(13)
    else if u == 116 then Some(9)
    else None
  }

  function UnitOf(t: Text): (r: Option<ReadUnit>)
    requires t != []
    ensures r.Some? ==> |r.value.rest| < |t|
  {
    if t[0] < 32 then None
    else if t[0] != 92 then Some(ReadUnit(t[0], t[1..]))
    else if |t| < 2 then None
    else if t[1] != 117 then
      match Unescaped(t[1])
      case Some(u) => Some(ReadUnit(u, t[2..]))
      case None => None
    else if |t| >= 6 && HexValue(t[2]).Some? && HexValue(t[3]).Some? && HexValue(t[4]).Some? && HexValue(t[5]).Some? then
      Some(ReadUnit(4096 * HexValue(t[2]).value + 256 * HexValue(t[3]).value + 16 * HexValue(t[4]).value + HexValue(t[5]).value, t[6..]))
    else None
  }

  /** The rest of a string whose opening quote has been read. */
  function StringOf(t: Text): (r: Option<ReadText>)
    ensures r.Some? ==> |r.value.rest| < |t|
    decreases |t|
  {
    if t == [] then None
    else if t[0] == 34 then Some(ReadText([], t[1..]))
    else
      match UnitOf(t)
      case None => None
      case Some(ReadUnit(u, rest)) =>
        match StringOf(rest)
        case None => None
        case Some(ReadText(s, after)) => Some(ReadText([u] + s, after))
  }

  lemma {:induction false} HexReads(d: nat)
    requires d < 16
    ensures HexValue(Hex(d)) == Some(d)
  {
  }

  lemma {:induction false} UnicodeReads(u: Unit, x: Text)
    ensures UnitOf(UnicodeEscape(u) + x) == Some(ReadUnit(u, x))
  {
    var t := UnicodeEscape(u) + x;
    HexReads(u / 4096);
    HexReads(u / 256 % 16);
    HexReads(u / 16 % 16);
    HexReads(u % 16);
    HexDigits(u);
    assert t[0] == 92 && t[1] == 117 && t[2] == Hex(u / 4096) && t[3] == Hex(u / 256 % 16) && t[4] == Hex(u / 16 % 16) && t[5] == Hex(u % 16);
    assert t[6..] == x;
  }

  lemma {:induction false} EscapeReads(u: Unit, x: Text)
    ensures UnitOf(EscapeUnit(u) + x) == Some(ReadUnit(u, x)) && (EscapeUnit(u) + x)[0] != 34
  {
    var t := EscapeUnit(u) + x;
    if EscapeUnit(u) == UnicodeEscape(u) {
      UnicodeReads(u, x);
    } else if |EscapeUnit(u)| == 2 {
      assert t[0] == 92 && t[1] == EscapeUnit(u)[1] && t[2..] == x;
    } else {
      assert t[0] == u && t[1..] == x;
    }
  }

  lemma {:induction false} OneMore(t: Text, u: Unit, rest: Text, s: Text, after: Text)
    requires t != [] && t[0] != 34 && UnitOf(t) == Some(ReadUnit(u, rest)) && StringOf(rest) == Some(ReadText(s, after))
    ensures StringOf(t) == Some(ReadText([u] + s, after))
  {
  }

  lemma {:induction false} PairReads(a: Unit, b: Unit, rest: Text, s: Text, after: Text)
    requires High(a) && Low(b) && StringOf(rest) == Some(ReadText(s, after))
    ensures StringOf([a, b] + rest) == Some(ReadText([a, b] + s, after))
  {
    var t, t1 := [a, b] + rest, [b] + rest;
    assert t[1..] == t1 && t1[1..] == rest;
    OneMore(t1, b, rest, s, after);
    OneMore(t, a, t1, [b] + s, after);
    assert [a] + ([b] + s) == [a, b] + s;
  }

  lemma {:induction false} EscapeSplits(s: Text, tail: Text)
    requires s != []
    ensures Escape(s) + tail == EscapeFirst(s) + (Escape(s[Width(s)..]) + tail)
  {
    Associate(EscapeFirst(s), Escape(s[Width(s)..]), tail);
  }

  lemma {:induction false} StringReads(s: Text, x: Text)
    ensures StringOf(Escape(s) + ([34] + x)) == Some(ReadText(s, x))
    decreases |s|
  {
    var tail := [34] + x;
    if s == [] {
      assert Escape(s) + tail == tail && tail[1..] == x;
    } else {
      var n := Width(s);
      var rest := Escape(s[n..]) + tail;
      StringReads(s[n..], x);
      EscapeSplits(s, tail);
      assert s == s[..n] + s[n..];
      if StartsWithPair(s) {
        assert s[..2] == [s[0], s[1]];
        PairReads(s[0], s[1], rest, s[2..], x);
      } else {
        EscapeReads(s[0], rest);
        OneMore(EscapeUnit(s[0]) + rest, s[0], rest, s[1..], x);
        assert s[..1] == [s[0]];
      }
    }
  }

  // ---------------------------------------------------------------- reading values (sections 2 to 6)

  datatype ReadValue = ReadValue(value: Json, rest: Text)
  datatype ReadItems = ReadItems(items: seq<Json>, rest: Text)
  datatype ReadFields = ReadFields(fields: seq<Field>, rest: Text)

  /** The length of the number a text starts with. */
  function NumberLength(t: Text): (n: nat)
    ensures n <= |t|
  {
    if t == [] || !(48 <= t[0] <= 57 || t[0] == 43 || t[0] == 45 || t[0] == 46 || t[0] == 101) then 0 else 1 + NumberLength(t[1..])
  }

  function ValueOf(t: Text): (r: Option<ReadValue>)
    ensures r.Some? ==> |r.value.rest| < |t|
    decreases |t|, 1
  {
    if t == [] then None
    else if t[0] == 34 then
      match StringOf(t[1..])
      case None => None
      case Some(ReadText(s, rest)) => Some(ReadValue(Str(s), rest))
    else if t[0] == 91 then
      if |t| >= 2 && t[1] == 93 then Some(ReadValue(Arr([]), t[2..]))
      else
        match ItemsOf(t[1..])
        case None => None
        case Some(ReadItems(xs, rest)) => Some(ReadValue(Arr(xs), rest))
    else if t[0] == 123 then
      if |t| >= 2 && t[1] == 125 then Some(ReadValue(Obj([]), t[2..]))
      else
        match FieldsOf(t[1..])
        case None => None
        case Some(ReadFields(fs, rest)) => Some(ReadValue(Obj(fs), rest))
    else PlainOf(t)
  }

  /** null, true, false or a number. */
  function PlainOf(t: Text): (r: Option<ReadValue>)
    requires t != []
    ensures r.Some? ==> |r.value.rest| < |t|
  {
    if [110, 117, 108, 108] <= t then Some(ReadValue(Null, t[4..]))
    else if [116, 114, 117, 101] <= t then Some(ReadValue(Bool(true), t[4..]))
    else if [102, 97, 108, 115, 101] <= t then Some(ReadValue(Bool(false), t[5..]))
    else if IsNumberText(t[..NumberLength(t)]) then Some(ReadValue(Num(t[..NumberLength(t)]), t[NumberLength(t)..]))
    else None
  }

  /** The rest of an array that has an item to read. */
  function ItemsOf(t: Text): (r: Option<ReadItems>)
    ensures r.Some? ==> |r.value.rest| < |t|
    decreases |t|, 2
  {
    match ValueOf(t)
    case None => None
    case Some(ReadValue(v, rest)) =>
      if rest == [] then None
      else if rest[0] == 93 then Some(ReadItems([v], rest[1..]))
      else if rest[0] != 44 then None
      else
        match ItemsOf(rest[1..])
        case None => None
        case Some(ReadItems(xs, after)) => Some(ReadItems([v] + xs, after))
  }

  function FieldOf(t: Text): (r: Option<ReadFields>)
    ensures r.Some? ==> |r.value.rest| < |t| && |r.value.fields| == 1
    decreases |t|, 2
  {
    if t == [] || t[0] != 34 then None
    else
      match StringOf(t[1..])
      case None => None
      case Some(ReadText(k, rest)) =>
        if rest == [] || rest[0] != 58 then None
        else
          match ValueOf(rest[1..])
          case None => None
          case Some(ReadValue(v, after)) => Some(ReadFields([Field(k, v)], after))
  }

  /** The rest of an object that has a field to read. */
  function FieldsOf(t: Text): (r: Option<ReadFields>)
    ensures r.Some? ==> |r.value.rest| < |t|
    decreases |t|, 3
  {
    match FieldOf(t)
    case None => None
    case Some(ReadFields(f, rest)) =>
      if rest == [] then None
      else if rest[0] == 125 then Some(ReadFields(f, rest[1..]))
      else if rest[0] != 44 then None
      else
        match FieldsOf(rest[1..])
        case None => None
        case Some(ReadFields(fs, after)) => Some(ReadFields(f + fs, after))
  }

  // ---------------------------------------------------------------- what is found

  /** Ascending code-unit order: the first difference decides, and a proper prefix comes first. */
  ghost predicate Ascends(a: Text, b: Text) {
    exists k :: 0 <= k <= |a| && k < |b| && a[..k] == b[..k] && (k == |a| || a[k] < b[k])
  }

  /** At every nesting the keys of an object ascend. */
  ghost predicate KeysAscend(v: Json) {
    match v
    case Arr(xs) => forall x :: x in xs ==> KeysAscend(x)
    case Obj(fs) => (forall i, j :: 0 <= i < j < |fs| ==> Ascends(fs[i].key, fs[j].key)) && forall f :: f in fs ==> KeysAscend(f.value)
    case _ => true
  }

  lemma {:induction false} BeforeAscends(a: Text, b: Text)
    requires Before(a, b)
    ensures Ascends(a, b)
    decreases |a|
  {
    if a == [] {
      assert a[..0] == b[..0];
    } else if a[0] != b[0] {
      assert a[..0] == b[..0] && a[0] < b[0];
    } else {
      BeforeAscends(a[1..], b[1..]);
      var k :| 0 <= k <= |a[1..]| && k < |b[1..]| && a[1..][..k] == b[1..][..k] && (k == |a[1..]| || a[1..][k] < b[1..][k]);
      assert a[..k + 1] == [a[0]] + a[1..][..k] && b[..k + 1] == [b[0]] + b[1..][..k];
    }
  }

  predicate Ends(x: Text) { x == [] || x[0] == 44 || x[0] == 93 || x[0] == 125 }

  lemma {:induction false} NumberEnds(t: Text, x: Text)
    requires Ends(x) && forall i :: 0 <= i < |t| ==> NumberUnit(t[i])
    ensures NumberLength(t + x) == |t|
  {
    if t == [] {
      assert t + x == x;
    } else {
      NumberEnds(t[1..], x);
      assert (t + x)[1..] == t[1..] + x && NumberUnit(t[0]);
    }
  }

  lemma {:induction false} NumberReads(t: NumberText, x: Text)
    requires Ends(x)
    ensures ValueOf(t + x) == Some(ReadValue(Num(t), x))
  {
    NumberEnds(t, x);
    assert (t + x)[..|t|] == t && (t + x)[|t|..] == x && (t + x)[0] == t[0];
    assert Digit(t[0]) || t[0] == 45;
    assert [110, 117, 108, 108][0] == 110 && [116, 114, 117, 101][0] == 116 && [102, 97, 108, 115, 101][0] == 102;
  }

  lemma {:induction false} WordReads(v: Json, x: Text)
    requires v.Undefined? || v.Null? || v.NonFinite? || v.Bool?
    ensures ValueOf(Canonical(v) + x) == Some(ReadValue(if v.Bool? then v else Null, x))
  {
    var t := Canonical(v) + x;
    assert Canonical(v) == t[..|Canonical(v)|] && t[|Canonical(v)|..] == x;
    assert t[0] == Canonical(v)[0];
  }

  lemma {:induction false} AfterFirst(open: Unit, t: Text, close: Unit, x: Text)
    ensures ([open] + t + [close] + x)[0] == open && ([open] + t + [close] + x)[1..] == t + ([close] + x)
  {
  }

  lemma {:induction false} TextReads(s: Text, x: Text)
    ensures ValueOf(Quoted(s) + x) == Some(ReadValue(Str(s), x))
  {
    StringReads(s, x);
    AfterFirst(34, Escape(s), 34, x);
    StringValue(Quoted(s) + x, s, x);
  }

  lemma {:induction false} StringValue(t: Text, s: Text, x: Text)
    requires t != [] && t[0] == 34 && StringOf(t[1..]) == Some(ReadText(s, x))
    ensures ValueOf(t) == Some(ReadValue(Str(s), x))
  {
  }

  /** A value begins with none of the closing units. */
  lemma {:induction false} Begins(v: Json)
    ensures Canonical(v) != [] && Canonical(v)[0] != 93 && Canonical(v)[0] != 125
  {
    if v.Num? {
      assert IsNumberText(v.text) && (Digit(v.text[0]) || v.text[0] == 45);
    }
  }

  // ---------------------------------------------------------------- arrays and objects

  lemma {:induction false} JoinMore(parts: seq<Text>, tail: Text)
    requires parts != []
    ensures Join(parts) + tail == parts[0] + if |parts| == 1 then tail else [44] + (Join(parts[1..]) + tail)
  {
    if |parts| > 1 {
      Associate(parts[0] + [COMMA], Join(parts[1..]), tail);
      Associate(parts[0], [COMMA], Join(parts[1..]) + tail);
    }
  }

  /** The text of a nonempty list begins as its first part does. */
  lemma {:induction false} JoinBegins(parts: seq<Text>, tail: Text)
    requires parts != [] && parts[0] != []
    ensures (Join(parts) + tail) != [] && (Join(parts) + tail)[0] == parts[0][0]
  {
    JoinMore(parts, tail);
  }

  lemma {:induction false} LastItem(t: Text, v: Json, x: Text)
    requires ValueOf(t) == Some(ReadValue(v, [93] + x))
    ensures ItemsOf(t) == Some(ReadItems([v], x))
  {
    assert ([93] + x)[1..] == x;
  }

  lemma {:induction false} MoreItems(t: Text, v: Json, rest: Text, vs: seq<Json>, x: Text)
    requires ValueOf(t) == Some(ReadValue(v, [44] + rest)) && ItemsOf(rest) == Some(ReadItems(vs, x))
    ensures ItemsOf(t) == Some(ReadItems([v] + vs, x))
  {
    assert ([44] + rest)[1..] == rest;
  }

  lemma {:induction false} FieldReads(p: Printed, v: Json, x: Text)
    requires ValueOf(p.value + x) == Some(ReadValue(v, x))
    ensures FieldOf(Member(p) + x) == Some(ReadFields([Field(p.key, v)], x))
  {
    var rest := [58] + (p.value + x);
    assert Member(p) + x == Quoted(p.key) + rest && rest[1..] == p.value + x;
    AfterFirst(34, Escape(p.key), 34, rest);
    StringReads(p.key, rest);
  }

  lemma {:induction false} LastField(t: Text, f: Field, x: Text)
    requires FieldOf(t) == Some(ReadFields([f], [125] + x))
    ensures FieldsOf(t) == Some(ReadFields([f], x))
  {
    assert ([125] + x)[1..] == x;
  }

  lemma {:induction false} MoreFields(t: Text, f: Field, rest: Text, fs: seq<Field>, x: Text)
    requires FieldOf(t) == Some(ReadFields([f], [44] + rest)) && FieldsOf(rest) == Some(ReadFields(fs, x))
    ensures FieldsOf(t) == Some(ReadFields([f] + fs, x))
  {
    assert ([44] + rest)[1..] == rest;
  }

  ghost predicate ItemsFound(xs: seq<Json>, ws: seq<Json>) {
    |ws| == |xs| && forall i :: 0 <= i < |xs| ==> Same(xs[i], ws[i]) && KeysAscend(ws[i])
  }

  /** The field was printed from a live field of `es` and holds the same value. */
  ghost predicate FieldFound(es: seq<Field>, p: Printed, f: Field) {
    f.key == p.key && !f.value.Undefined? && KeysAscend(f.value) && exists i :: EntryPrints(es, i, p) && Same(es[i].value, f.value)
  }

  ghost predicate FieldsFound(es: seq<Field>, ps: seq<Printed>, fs: seq<Field>) {
    |fs| == |ps| && forall k :: 0 <= k < |ps| ==> FieldFound(es, ps[k], fs[k])
  }

  /** Reading back canonical text, whatever follows it. */
  lemma {:induction false} Reads(v: Json, x: Text) returns (w: Json)
    requires IsValue(v) && Ends(x)
    ensures ValueOf(Canonical(v) + x) == Some(ReadValue(w, x)) && !w.Undefined? && Same(v, w) && KeysAscend(w)
    decreases v, 0
  {
    match v
    case Num(t) => NumberReads(t, x); w := v;
    case Str(s) => TextReads(s, x); w := v;
    case Arr(xs) => w := ArrayReads(xs, x);
    case Obj(es) => w := ObjectReads(es, x);
    case _ => WordReads(v, x); w := if v.Bool? then v else Null;
  }

  lemma {:induction false} ArrayReads(xs: seq<Json>, x: Text) returns (w: Json)
    requires forall y :: y in xs ==> IsValue(y)
    ensures ValueOf(Canonical(Arr(xs)) + x) == Some(ReadValue(w, x)) && !w.Undefined? && Same(Arr(xs), w) && KeysAscend(w)
    decreases xs, 2
  {
    var parts := PrintedItems(xs);
    AfterFirst(91, Join(parts), 93, x);
    var t := Canonical(Arr(xs)) + x;
    if xs == [] {
      assert t[1..] == [93] + x && t[1] == t[1..][0] && t[2..] == t[1..][1..] == x;
      w := Arr([]);
    } else {
      Begins(xs[0]);
      JoinBegins(parts, [93] + x);
      assert t[1] == t[1..][0];
      var ws := ItemsRead(xs, x);
      w := Arr(ws);
    }
  }

  lemma {:induction false} ItemsRead(xs: seq<Json>, x: Text) returns (ws: seq<Json>)
    requires xs != [] && forall y :: y in xs ==> IsValue(y)
    ensures ItemsOf(Join(PrintedItems(xs)) + ([93] + x)) == Some(ReadItems(ws, x)) && ItemsFound(xs, ws)
    decreases xs, 1
  {
    var parts := PrintedItems(xs);
    var tail := [93] + x;
    JoinMore(parts, tail);
    if |xs| == 1 {
      var w := Reads(xs[0], tail);
      LastItem(Join(parts) + tail, w, x);
      ws := [w];
    } else {
      var rest := Join(PrintedItems(xs[1..])) + tail;
      var w := Reads(xs[0], [44] + rest);
      var more := ItemsRead(xs[1..], x);
      MoreItems(Join(parts) + tail, w, rest, more, x);
      ws := [w] + more;
    }
  }

  lemma {:induction false} EmptyObject(t: Text, x: Text)
    requires t != [] && t[0] == 123 && t[1..] == [125] + x
    ensures ValueOf(t) == Some(ReadValue(Obj([]), x))
  {
    assert t[1] == t[1..][0] && t[2..] == t[1..][1..];
  }

  lemma {:induction false} FullObject(t: Text, fs: seq<Field>, x: Text)
    requires t != [] && t[0] == 123 && t[1..] != [] && t[1..][0] == 34 && FieldsOf(t[1..]) == Some(ReadFields(fs, x))
    ensures ValueOf(t) == Some(ReadValue(Obj(fs), x))
  {
    assert t[1] == t[1..][0];
  }

  lemma {:induction false} ObjectReads(es: seq<Field>, x: Text) returns (w: Json)
    requires IsValue(Obj(es))
    ensures ValueOf(Canonical(Obj(es)) + x) == Some(ReadValue(w, x)) && !w.Undefined? && Same(Obj(es), w) && KeysAscend(w)
    decreases es, |SortedFields(es)| + 1
  {
    var ps := SortedFields(es);
    AfterFirst(123, Join(Members(ps)), 125, x);
    var t := Canonical(Obj(es)) + x;
    var fs: seq<Field> := [];
    if ps == [] {
      EmptyObject(t, x);
    } else {
      JoinBegins(Members(ps), [125] + x);
      forall p | p in ps ensures PrintedIn(es, p) { SortedPrinted(es, p); }
      fs := FieldsRead(es, ps, x);
      FullObject(t, fs, x);
    }
    w := Obj(fs);
    FoundIsSame(es, fs);
    FoundAscends(es, fs);
  }

  lemma {:induction false} FirstFieldRead(es: seq<Field>, p: Printed, x: Text) returns (f: Field)
    requires IsValue(Obj(es)) && PrintedIn(es, p) && Ends(x)
    ensures FieldOf(Member(p) + x) == Some(ReadFields([f], x)) && FieldFound(es, p, f)
    decreases es, 0
  {
    var i :| EntryPrints(es, i, p);
    var w := Reads(es[i].value, x);
    FieldReads(p, w, x);
    f := Field(p.key, w);
  }

  lemma {:induction false} FieldsRead(es: seq<Field>, ps: seq<Printed>, x: Text) returns (fs: seq<Field>)
    requires IsValue(Obj(es)) && ps != [] && forall p :: p in ps ==> PrintedIn(es, p)
    ensures FieldsOf(Join(Members(ps)) + ([125] + x)) == Some(ReadFields(fs, x)) && FieldsFound(es, ps, fs)
    decreases es, |ps|
  {
    var tail := [125] + x;
    JoinMore(Members(ps), tail);
    assert PrintedIn(es, ps[0]);
    if |ps| == 1 {
      var f := FirstFieldRead(es, ps[0], tail);
      LastField(Join(Members(ps)) + tail, f, x);
      fs := [f];
    } else {
      assert Members(ps)[1..] == Members(ps[1..]);
      var rest := Join(Members(ps[1..])) + tail;
      var f := FirstFieldRead(es, ps[0], [44] + rest);
      var more := FieldsRead(es, ps[1..], x);
      MoreFields(Join(Members(ps)) + tail, f, rest, more, x);
      fs := [f] + more;
    }
  }

  lemma {:induction false} LiveIsFound(es: seq<Field>, fs: seq<Field>, i: nat)
    requires DistinctKeys(es) && FieldsFound(es, SortedFields(es), fs) && i < |es| && !es[i].value.Undefined?
    ensures exists j :: SameEntry(es, i, fs, j)
  {
    var p, ps := Printed(es[i].key, Canonical(es[i].value)), SortedFields(es);
    assert EntryPrints(es, i, p);
    SortedPrinted(es, p);
    var k :| 0 <= k < |ps| && ps[k] == p;
    assert FieldFound(es, ps[k], fs[k]);
    var n :| EntryPrints(es, n, p) && Same(es[n].value, fs[k].value);
    assert n == i;
    assert SameEntry(es, i, fs, k);
  }

  lemma {:induction false} FoundIsLive(es: seq<Field>, fs: seq<Field>, j: nat)
    requires FieldsFound(es, SortedFields(es), fs) && j < |fs|
    ensures exists i :: SameEntry(es, i, fs, j)
  {
    var p := SortedFields(es)[j];
    assert FieldFound(es, p, fs[j]);
    var i :| EntryPrints(es, i, p) && Same(es[i].value, fs[j].value);
    assert SameEntry(es, i, fs, j);
  }

  ghost predicate HasEntry(es: seq<Field>, i: int, fs: seq<Field>) { exists j :: SameEntry(es, i, fs, j) }
  ghost predicate HasSource(es: seq<Field>, fs: seq<Field>, j: int) { exists i :: SameEntry(es, i, fs, j) }

  lemma {:induction false} LiveAreFound(es: seq<Field>, fs: seq<Field>)
    requires DistinctKeys(es) && FieldsFound(es, SortedFields(es), fs)
    ensures forall i {:trigger HasEntry(es, i, fs)} :: 0 <= i < |es| && !es[i].value.Undefined? ==> HasEntry(es, i, fs)
  {
    forall i {:trigger HasEntry(es, i, fs)} | 0 <= i < |es| && !es[i].value.Undefined? ensures HasEntry(es, i, fs) { LiveIsFound(es, fs, i); }
  }

  lemma {:induction false} FoundAreLive(es: seq<Field>, fs: seq<Field>)
    requires DistinctKeys(es) && FieldsFound(es, SortedFields(es), fs)
    ensures forall j {:trigger HasSource(es, fs, j)} :: 0 <= j < |fs| ==> HasSource(es, fs, j)
  {
    forall j {:trigger HasSource(es, fs, j)} | 0 <= j < |fs| ensures HasSource(es, fs, j) { FoundIsLive(es, fs, j); }
  }

  lemma {:induction false} EntriesAreSame(es: seq<Field>, fs: seq<Field>)
    requires forall i {:trigger HasEntry(es, i, fs)} :: 0 <= i < |es| && !es[i].value.Undefined? ==> HasEntry(es, i, fs)
    requires forall j {:trigger HasSource(es, fs, j)} :: 0 <= j < |fs| ==> HasSource(es, fs, j)
    ensures Same(Obj(es), Obj(fs))
  {
    assert forall i :: 0 <= i < |es| && !es[i].value.Undefined? ==> HasEntry(es, i, fs);
    assert forall j :: 0 <= j < |fs| && !fs[j].value.Undefined? ==> HasSource(es, fs, j);
  }

  lemma {:induction false} FoundIsSame(es: seq<Field>, fs: seq<Field>)
    requires DistinctKeys(es) && FieldsFound(es, SortedFields(es), fs)
    ensures Same(Obj(es), Obj(fs))
  {
    LiveAreFound(es, fs);
    FoundAreLive(es, fs);
    EntriesAreSame(es, fs);
  }

  lemma {:induction false} FoundAscends(es: seq<Field>, fs: seq<Field>)
    requires DistinctKeys(es) && FieldsFound(es, SortedFields(es), fs)
    ensures KeysAscend(Obj(fs))
  {
    var ps := SortedFields(es);
    SortedAscending(es);
    forall i, j | 0 <= i < j < |fs| ensures Ascends(fs[i].key, fs[j].key) {
      assert FieldFound(es, ps[i], fs[i]) && FieldFound(es, ps[j], fs[j]);
      BeforeAscends(ps[i].key, ps[j].key);
    }
    forall f | f in fs ensures KeysAscend(f.value) {
      var k :| 0 <= k < |fs| && fs[k] == f;
      assert FieldFound(es, ps[k], fs[k]);
    }
  }

  // ---------------------------------------------------------------- main theorem

  /** Canonical text is JSON text: read back, it is the same value, and at every nesting the keys ascend in code units. */
  lemma {:induction false} CanonicalReadsBack(v: Json) returns (w: Json)
    requires IsValue(v)
    ensures ValueOf(Canonical(v)) == Some(ReadValue(w, [])) && Same(v, w) && KeysAscend(w)
  {
    w := Reads(v, []);
    assert Canonical(v) + [] == Canonical(v);
  }

  /** Text without controls, quotes, backslashes and lone surrogates is printed as it is. */
  lemma {:induction false} PlainTextStays(s: Text)
    requires WellPaired(s) && forall i :: 0 <= i < |s| ==> s[i] >= 32 && s[i] != 34 && s[i] != 92
    ensures Escape(s) == s
    decreases |s|
  {
    if s != [] {
      var w := if 0xD800 <= s[0] <= 0xDBFF then 2 else 1;
      PlainTextStays(s[w..]);
      assert s == s[..w] + s[w..];
    }
  }
}
