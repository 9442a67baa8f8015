/** JSON strings and objects as text, and how long that text is in bytes, once and when it is itself put
    into a JSON string (`JSON.stringify` and `Buffer.byteLength`, packages/contracts/src/index.ts:291-293,
    packages/cli/src/demoTransportState.ts:86). */
module JsonText {

  // ---------------------------------------------------------------- characters

  predicate IsControl(c: char) {
    c < ' '
  }

  predicate IsMark(c: char) {
    c == '"' || c == '\\'
  }

  /** Neither escaped nor more than one byte. */
  predicate IsPlain(c: char) {
    ' ' <= c < '\U{80}' && !IsMark(c)
  }

  predicate Plain(s: string) {
    forall i :: 0 <= i < |s| ==> IsPlain(s[i])
  }

  predicate NoControls(s: string) {
    forall i :: 0 <= i < |s| ==> !IsControl(s[i])
  }

  function Utf8(c: char): nat {
    if c < '\U{80}' then 1 else if c < '\U{800}' then 2 else if c < '\U{10000}' then 3 else 4
  }

  function Hex(n: nat): char
    requires n < 16
  {
    "0123456789abcdef"[n]
  }

  /** One character inside a JSON string. */
  function Escape(c: char): string {
    if IsMark(c) then ['\\', c]
    else if c == '\n' then "\\n"
    else if c == '\r' then "\\r"
    else if c == '\t' then "\\t"
    else if c == '\U{8}' then "\\b"
    else if c == '\U{c}' then "\\f"
    else if IsControl(c) then "\\u00" + [Hex(c as int / 16), Hex(c as int % 16)]
    else [c]
  }

  function Escaped(s: string): string {
    if s == [] then [] else Escape(s[0]) + Escaped(s[1..])
  }

  // ---------------------------------------------------------------- lengths

  function Bytes(s: string): nat {
    if s == [] then 0 else Utf8(s[0]) + Bytes(s[1..])
  }

  /** Quotes and backslashes: what a second escaping doubles. */
  function Marks(s: string): nat {
    if s == [] then 0 else (if IsMark(s[0]) then 1 else 0) + Marks(s[1..])
  }

  lemma {:induction false} Joined(a: string, b: string)
    ensures Bytes(a + b) == Bytes(a) + Bytes(b) && Marks(a + b) == Marks(a) + Marks(b)
  {
    if a == [] {
      assert a + b == b;
    } else {
      assert (a + b)[1..] == a[1..] + b;
      Joined(a[1..], b);
    }
  }

  lemma {:induction false} PlainSize(s: string)
    requires Plain(s)
    ensures Bytes(s) == |s| && Marks(s) == 0 && Escaped(s) == s
  {
    if s != [] {
      PlainSize(s[1..]);
      assert s == [s[0]] + s[1..];
    }
  }

  lemma OneSize(c: char)
    ensures Bytes([c]) == Utf8(c) && Marks([c]) == if IsMark(c) then 1 else 0
  {
    assert [c][1..] == [];
  }

  lemma HexIsPlain(n: nat)
    requires n < 16
    ensures IsPlain(Hex(n))
  {
    assert Hex(n) in "0123456789abcdef";
  }

  /** What one character costs inside a JSON string: in bytes, and in quotes and backslashes. */
  function Cost(c: char): (nat, nat) {
    if IsMark(c) then (2, 2)
    else if c in ['\n', '\r', '\t', '\U{8}', '\U{c}'] then (2, 1)
    else if IsControl(c) then (6, 1)
    else (Utf8(c), 0)
  }

  lemma EscapeSize(c: char)
    ensures (Bytes(Escape(c)), Marks(Escape(c))) == Cost(c)
    ensures NoControls(Escape(c))
  {
    var e := Escape(c);
    if |e| == 1 {
      OneSize(c);
    } else {
      assert e == ['\\'] + e[1..];
      OneSize('\\');
      Joined(['\\'], e[1..]);
      if |e| == 2 {
        assert e[1..] == [e[1]];
        OneSize(e[1]);
      } else {
        var high, low := Hex(c as int / 16), Hex(c as int % 16);
        HexIsPlain(c as int / 16);
        HexIsPlain(c as int % 16);
        assert e[1..] == ['u', '0', '0', high, low];
        PlainSize(e[1..]);
      }
    }
  }

  // ---------------------------------------------------------------- strings

  /** The cost of a whole string, quotes not counted. */
  function Costs(s: string): (nat, nat) {
    if s == [] then (0, 0) else
      var first, rest := Cost(s[0]), Costs(s[1..]);
      (first.0 + rest.0, first.1 + rest.1)
  }

  lemma {:induction false} EscapedSize(s: string)
    ensures (Bytes(Escaped(s)), Marks(Escaped(s))) == Costs(s)
    ensures NoControls(Escaped(s))
  {
    if s != [] {
      EscapeSize(s[0]);
      EscapedSize(s[1..]);
      Joined(Escape(s[0]), Escaped(s[1..]));
    }
  }

  /** Text without control characters grows, put into a JSON string, by its quotes and backslashes alone. */
  lemma {:induction false} EscapingAddsMarks(s: string)
    requires NoControls(s)
    ensures Costs(s).0 == Bytes(s) + Marks(s)
  {
    if s != [] {
      EscapingAddsMarks(s[1..]);
    }
  }

  /** Text without control characters costs, escaped twice, at most four bytes a character. */
  lemma {:induction false} CostsWithoutControls(s: string)
    requires NoControls(s)
    ensures Costs(s).0 + Costs(s).1 <= 4 * |s|
  {
    if s != [] {
      CostsWithoutControls(s[1..]);
    }
  }

  lemma {:induction false} CostsOfPlain(s: string)
    requires Plain(s)
    ensures Costs(s) == (|s|, 0)
  {
    if s != [] {
      CostsOfPlain(s[1..]);
    }
  }

  lemma {:induction false} CostsJoin(a: string, b: string)
    ensures Costs(a + b) == (Costs(a).0 + Costs(b).0, Costs(a).1 + Costs(b).1)
  {
    if a == [] {
      assert a + b == b;
    } else {
      assert (a + b)[1..] == a[1..] + b;
      CostsJoin(a[1..], b);
    }
  }

  function Repeat(c: char, n: nat): (s: string)
    ensures |s| == n && forall i :: 0 <= i < n ==> s[i] == c
  {
    seq(n, i => c)
  }

  lemma {:induction false} RepeatCost(c: char, n: nat)
    ensures Costs(Repeat(c, n)) == (n * Cost(c).0, n * Cost(c).1)
  {
    if n > 0 {
      RepeatCost(c, n - 1);
      assert Repeat(c, n)[1..] == Repeat(c, n - 1);
      assert n * Cost(c).0 == (n - 1) * Cost(c).0 + Cost(c).0 && n * Cost(c).1 == (n - 1) * Cost(c).1 + Cost(c).1;
    }
  }

  /** A JSON string. */
  function Quote(s: string): string {
    ['"'] + Escaped(s) + ['"']
  }

  // ---------------------------------------------------------------- numbers

  function Decimal(n: nat): (text: string)
    ensures Plain(text) && text != []
  {
    if n < 10 then [Digit(n)] else Decimal(n / 10) + [Digit(n % 10)]
  }

  function Digit(n: nat): (c: char)
    requires n < 10
    ensures IsPlain(c)
  {
    assert "0123456789"[n] in "0123456789";
    "0123456789"[n]
  }

  function Number(n: int): string {
    if n < 0 then "-" + Decimal(-n) else Decimal(n)
  }

  lemma {:induction false} DecimalLength(n: nat, digits: nat, bound: nat)
    requires digits >= 1 && n < bound && bound == TenTo(digits)
    ensures |Decimal(n)| <= digits
  {
    if n >= 10 {
      assert digits > 1;
      DecimalLength(n / 10, digits - 1, TenTo(digits - 1));
    }
  }

  function TenTo(digits: nat): nat {
    if digits == 0 then 1 else 10 * TenTo(digits - 1)
  }

  // ---------------------------------------------------------------- objects and lists

  /** The value of a member: a text to be quoted, or what is JSON already. */
  datatype Value = Text(text: string) | Json(json: string)

  datatype Field = Field(name: string, value: Value)

  function ValueJson(v: Value): string {
    match v
    case Text(text) => Quote(text)
    case Json(json) => json
  }

  /** An object's members from the k-th on. A separator is written after every member; the last one is where the
      closing bracket stands. */
  function Members(fields: seq<Field>, k: nat): string
    decreases |fields| - k
  {
    if k >= |fields| then "" else
      (Quote(fields[k].name) + ":" + ValueJson(fields[k].value) + ",") + Members(fields, k + 1)
  }

  function Items(items: seq<string>, k: nat): string
    decreases |items| - k
  {
    if k >= |items| then "" else (items[k] + ",") + Items(items, k + 1)
  }

  function Close(open: char, text: string, bracket: char): string {
    [open] + (if text == "" then "" else text[..|text| - 1]) + [bracket]
  }

  function Object(fields: seq<Field>): string {
    Close('{', Members(fields, 0), '}')
  }

  function List(items: seq<string>): string {
    Close('[', Items(items, 0), ']')
  }

  // ---------------------------------------------------------------- how long it all is

  /** A text's bytes, and its quotes and backslashes. It holds no control character. */
  ghost predicate Sized(text: string, size: (nat, nat)) {
    (Bytes(text), Marks(text)) == size && NoControls(text)
  }

  function Plus(a: (nat, nat), b: (nat, nat)): (nat, nat) {
    (a.0 + b.0, a.1 + b.1)
  }

  /** A member with its name's quotes, the colon and the separator. */
  function FieldSize(f: Field): (nat, nat) {
    match f.value
    case Text(text) => (|f.name| + 6 + Costs(text).0, 4 + Costs(text).1)
    case Json(json) => (|f.name| + 4 + Bytes(json), 2 + Marks(json))
  }

  function FieldsSize(fields: seq<Field>, k: nat): (nat, nat)
    decreases |fields| - k
  {
    if k >= |fields| then (0, 0) else Plus(FieldSize(fields[k]), FieldsSize(fields, k + 1))
  }

  predicate FieldSound(f: Field) {
    Plain(f.name) && (f.value.Json? ==> NoControls(f.value.json))
  }

  lemma JoinSized(a: string, sa: (nat, nat), b: string, sb: (nat, nat))
    requires Sized(a, sa) && Sized(b, sb)
    ensures Sized(a + b, Plus(sa, sb))
  {
    Joined(a, b);
  }

  lemma CharSized(c: char)
    requires IsPlain(c)
    ensures Sized([c], (1, 0))
  {
    OneSize(c);
  }

  lemma PlainSized(s: string)
    requires Plain(s)
    ensures Sized(s, (|s|, 0))
  {
    PlainSize(s);
  }

  lemma MarkSized()
    ensures Sized(['"'], (1, 1))
  {
    OneSize('"');
  }

  lemma QuoteSized(s: string)
    ensures Sized(Quote(s), (2 + Costs(s).0, 2 + Costs(s).1))
  {
    hide Costs, Escaped, Bytes, Marks, NoControls;
    EscapedSize(s);
    MarkSized();
    assert Sized(Escaped(s), Costs(s));
    hide Sized;
    JoinSized(['"'], (1, 1), Escaped(s), Costs(s));
    JoinSized(['"'] + Escaped(s), (1 + Costs(s).0, 1 + Costs(s).1), ['"'], (1, 1));
  }

  lemma FieldSized(f: Field)
    requires FieldSound(f)
    ensures Sized(Quote(f.name) + ":" + ValueJson(f.value) + ",", FieldSize(f))
  {
    hide Quote, Costs;
    QuoteSized(f.name);
    CostsOfPlain(f.name);
    CharSized(':');
    CharSized(',');
    if f.value.Text? {
      QuoteSized(f.value.text);
    }
    hide Sized;
    var value := (FieldSize(f).0 - |f.name| - 4, FieldSize(f).1 - 2);
    assert Sized(ValueJson(f.value), value) by {
      if f.value.Json? {
        assert Sized(f.value.json, (Bytes(f.value.json), Marks(f.value.json))) by { JsonSized(f.value.json); }
      }
    }
    JoinSized(Quote(f.name), (2 + |f.name|, 2), ":", (1, 0));
    JoinSized(Quote(f.name) + ":", (3 + |f.name|, 2), ValueJson(f.value), value);
    JoinSized(Quote(f.name) + ":" + ValueJson(f.value), (3 + |f.name| + value.0, 2 + value.1), ",", (1, 0));
  }

  lemma JsonSized(json: string)
    requires NoControls(json)
    ensures Sized(json, (Bytes(json), Marks(json)))
  {
  }

  ghost predicate EndsInComma(text: string) {
    text != [] && text[|text| - 1] == ','
  }

  lemma {:induction false} MembersSized(fields: seq<Field>, k: nat)
    requires k <= |fields| && forall i :: 0 <= i < |fields| ==> FieldSound(fields[i])
    ensures Sized(Members(fields, k), FieldsSize(fields, k))
    ensures k < |fields| ==> EndsInComma(Members(fields, k))
    decreases |fields| - k
  {
    if k < |fields| {
      hide Sized, FieldSize, FieldSound, Quote, ValueJson;
      MembersSized(fields, k + 1);
      FieldSized(fields[k]);
      JoinSized(Quote(fields[k].name) + ":" + ValueJson(fields[k].value) + ",", FieldSize(fields[k]),
                Members(fields, k + 1), FieldsSize(fields, k + 1));
    }
  }

  /** The closing bracket takes the last separator's place. */
  lemma CloseSized(open: char, text: string, size: (nat, nat), bracket: char)
    requires Sized(text, size) && EndsInComma(text) && IsPlain(open) && IsPlain(bracket)
    ensures Sized(Close(open, text, bracket), (1 + size.0, size.1))
  {
    var front := text[..|text| - 1];
    assert text == front + [','];
    Joined(front, [',']);
    OneSize(',');
    assert Sized(front, (size.0 - 1, size.1));
    CharSized(open);
    CharSized(bracket);
    JoinSized([open], (1, 0), front, (size.0 - 1, size.1));
    JoinSized([open] + front, (size.0, size.1), [bracket], (1, 0));
  }

  lemma ObjectSized(fields: seq<Field>)
    requires fields != [] && forall i :: 0 <= i < |fields| ==> FieldSound(fields[i])
    ensures Sized(Object(fields), (1 + FieldsSize(fields, 0).0, FieldsSize(fields, 0).1))
  {
    hide Sized, EndsInComma, Close, Members;
    MembersSized(fields, 0);
    CloseSized('{', Members(fields, 0), FieldsSize(fields, 0), '}');
  }

  /** The sum of an object's members between two places, one step for each. */
  lemma FieldsAddUp(fields: seq<Field>, from: nat, to: nat)
    requires to <= |fields|
    ensures forall k: nat {:trigger FieldsSize(fields, k)} :: from <= k < to ==>
              FieldsSize(fields, k) == Plus(FieldSize(fields[k]), FieldsSize(fields, k + 1))
    ensures FieldsSize(fields, |fields|) == (0, 0)
  {
  }

  function ItemsSize(items: seq<string>, k: nat): (nat, nat)
    decreases |items| - k
  {
    if k >= |items| then (0, 0) else Plus((Bytes(items[k]) + 1, Marks(items[k])), ItemsSize(items, k + 1))
  }

  lemma {:induction false} ItemsSized(items: seq<string>, k: nat)
    requires k <= |items| && forall i :: 0 <= i < |items| ==> NoControls(items[i])
    ensures Sized(Items(items, k), ItemsSize(items, k))
    ensures k < |items| ==> EndsInComma(Items(items, k))
    decreases |items| - k
  {
    if k < |items| {
      hide NoControls;
      ItemsSized(items, k + 1);
      CharSized(',');
      JsonSized(items[k]);
      hide Sized;
      JoinSized(items[k], (Bytes(items[k]), Marks(items[k])), ",", (1, 0));
      JoinSized(items[k] + ",", (Bytes(items[k]) + 1, Marks(items[k])), Items(items, k + 1), ItemsSize(items, k + 1));
    }
  }

  lemma ListSized(items: seq<string>)
    requires items != [] && forall i :: 0 <= i < |items| ==> NoControls(items[i])
    ensures Sized(List(items), (1 + ItemsSize(items, 0).0, ItemsSize(items, 0).1))
  {
    hide Sized, EndsInComma, Close, Items, NoControls;
    ItemsSized(items, 0);
    CloseSized('[', Items(items, 0), ItemsSize(items, 0), ']');
  }

  /** Sized text as the content of a JSON string. */
  lemma NestedSized(text: string, size: (nat, nat))
    requires Sized(text, size)
    ensures Costs(text).0 == size.0 + size.1
  {
    EscapingAddsMarks(text);
  }
}
