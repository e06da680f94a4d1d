/** JSON text as `JSON.stringify` writes it, and why no two values share one. */
module Json {
  import opened Basics

  /** A number is held as the text it prints as. */
  datatype Value =
    | Null
    | Bool(on: bool)
    | Number(lexeme: string)
    | Text(text: string)
    | Array(items: seq<Value>)
    | Object(fields: seq<Field>)

  datatype Field = Field(name: string, value: Value)

  predicate NumberChar(c: char) {
    '0' <= c <= '9' || c in {'-', '+', '.', 'e'}
  }

  predicate StartsNumber(c: char) {
    '0' <= c <= '9' || c == '-'
  }

  predicate IsNumber(s: string) {
    s != [] && StartsNumber(s[0]) && forall i :: 0 <= i < |s| ==> NumberChar(s[i])
  }

  /** Every number in the value is written as a number is. */
  ghost predicate Sound(v: Value)
    decreases v
  {
    match v
    case Number(lexeme) => IsNumber(lexeme)
    case Array(items) => AllSound(items)
    case Object(fields) => FieldsSound(fields)
    case _ => true
  }

  ghost predicate AllSound(items: seq<Value>)
    decreases items
  {
    forall i :: 0 <= i < |items| ==> Sound(items[i])
  }

  ghost predicate FieldsSound(fields: seq<Field>)
    decreases fields
  {
    forall i :: 0 <= i < |fields| ==> Sound(fields[i].value)
  }

  // ----- structure -----

  function Size(v: Value): (n: nat)
    ensures n >= 1
    decreases v
  {
    match v
    case Array(items) => 1 + ItemsSize(items)
    case Object(fields) => 1 + FieldsSize(fields)
    case _ => 1
  }

  function ItemsSize(items: seq<Value>): nat
    decreases items
  {
    if items == [] then 0 else Size(items[0]) + ItemsSize(items[1..])
  }

  function FieldsSize(fields: seq<Field>): nat
    decreases fields
  {
    if fields == [] then 0 else Size(fields[0].value) + FieldsSize(fields[1..])
  }

  /** A property of an object, or none. */
  function Get(fields: seq<Field>, name: string): (r: Option<Value>)
    ensures r.Some? ==> Size(r.value) <= FieldsSize(fields)
  {
    if fields == [] then None
    else if fields[0].name == name then Some(fields[0].value)
    else Get(fields[1..], name)
  }

  lemma {:induction false} GetIsSound(fields: seq<Field>, name: string)
    requires FieldsSound(fields)
    ensures Get(fields, name).Some? ==> Sound(Get(fields, name).value)
  {
    if fields != [] && fields[0].name != name {
      GetIsSound(fields[1..], name);
    }
  }

  // ----- text -----

  function HexDigit(n: nat): char
    requires n < 16
  {
    "0123456789abcdef"[n]
  }

  /** Escaping of one character inside a string, section 7 of RFC 8259. */
  function Escape(c: char): string {
    if c == '\"' then "\\\""
    else if c == '\\' then "\\\\"
    else if c == '\U{8}' then "\\b"
    else if c == '\U{C}' then "\\f"
    else if c == '\n' then "\\n"
    else if c == '\r' then "\\r"
    else if c == '\t' then "\\t"
    else if c < ' ' then "\\u00" + [HexDigit(c as int / 16), HexDigit(c as int % 16)]
    else [c]
  }

  /** The rest of a string literal, and then `rest`. */
  function CharsThen(s: string, rest: string): string {
    if s == [] then "\"" + rest else Escape(s[0]) + CharsThen(s[1..], rest)
  }

  function TextThen(s: string, rest: string): string {
    "\"" + CharsThen(s, rest)
  }

  /** A value's text, and then `rest`. */
  function Then(v: Value, rest: string): string
    decreases v, 1
  {
    match v
    case Null => "null" + rest
    case Bool(on) => (if on then "true" else "false") + rest
    case Number(lexeme) => lexeme + rest
    case Text(s) => TextThen(s, rest)
    case Array(items) => "[" + ItemsThen(items, rest)
    case Object(fields) => "{" + FieldsThen(fields, rest)
  }

  function ItemsThen(items: seq<Value>, rest: string): string
    decreases items, 1
  {
    if items == [] then "]" + rest else Then(items[0], MoreItems(items[1..], rest))
  }

  function MoreItems(items: seq<Value>, rest: string): string
    decreases items, 1
  {
    if items == [] then "]" + rest else "," + Then(items[0], MoreItems(items[1..], rest))
  }

  function FieldThen(f: Field, rest: string): string
    decreases f, 2
  {
    TextThen(f.name, ":" + Then(f.value, rest))
  }

  function FieldsThen(fields: seq<Field>, rest: string): string
    decreases fields, 1
  {
    if fields == [] then "}" + rest else FieldThen(fields[0], MoreFields(fields[1..], rest))
  }

  function MoreFields(fields: seq<Field>, rest: string): string
    decreases fields, 1
  {
    if fields == [] then "}" + rest else "," + FieldThen(fields[0], MoreFields(fields[1..], rest))
  }

  function Stringify(v: Value): string {
    Then(v, [])
  }

  // ----- strings -----

  lemma HexDigitIsInjective(m: nat, n: nat)
    requires m < 16 && n < 16 && HexDigit(m) == HexDigit(n)
    ensures m == n
  {
  }

  /** No escape is the start of another. */
  lemma EscapeIsPrefixFree(c: char, d: char, r: string, s: string)
    requires Escape(c) + r == Escape(d) + s
    ensures c == d && r == s
  {
    var x, y := Escape(c) + r, Escape(d) + s;
    assert x[0] == Escape(c)[0] && y[0] == Escape(d)[0];
    if x[0] == '\\' {
      assert x[1] == Escape(c)[1] && y[1] == Escape(d)[1];
      if x[1] == 'u' {
        assert x[4] == Escape(c)[4] && y[4] == Escape(d)[4];
        assert x[5] == Escape(c)[5] && y[5] == Escape(d)[5];
        HexDigitIsInjective(c as int / 16, d as int / 16);
        HexDigitIsInjective(c as int % 16, d as int % 16);
      }
    }
    assert c == d;
    assert r == x[|Escape(c)|..] && s == y[|Escape(d)|..];
  }

  lemma CharsStart(s: string, rest: string)
    ensures CharsThen(s, rest) != []
    ensures CharsThen(s, rest)[0] == '\"' <==> s == []
  {
    if s != [] {
      assert CharsThen(s, rest)[0] == Escape(s[0])[0];
    }
  }

  lemma {:induction false} CharsArePrefixFree(a: string, b: string, r: string, s: string)
    requires CharsThen(a, r) == CharsThen(b, s)
    ensures a == b && r == s
  {
    CharsStart(a, r);
    CharsStart(b, s);
    if a != [] && b != [] {
      EscapeIsPrefixFree(a[0], b[0], CharsThen(a[1..], r), CharsThen(b[1..], s));
      CharsArePrefixFree(a[1..], b[1..], r, s);
    } else {
      SuffixesAgree("\"", r, s);
    }
  }

  lemma SuffixesAgree(p: string, r: string, s: string)
    requires p + r == p + s
    ensures r == s
  {
    assert r == (p + r)[|p|..] && s == (p + s)[|p|..];
  }

  lemma TextIsPrefixFree(a: string, b: string, r: string, s: string)
    requires TextThen(a, r) == TextThen(b, s)
    ensures a == b && r == s
  {
    SuffixesAgree("\"", CharsThen(a, r), CharsThen(b, s));
    CharsArePrefixFree(a, b, r, s);
  }

  // ----- values -----

  /** What may follow a value inside a text. */
  predicate Stops(r: string) {
    r == [] || r[0] in {',', ']', '}'}
  }

  lemma {:induction false} NumberEnds(a: string, b: string, r: string, s: string)
    requires forall i :: 0 <= i < |a| ==> NumberChar(a[i])
    requires forall i :: 0 <= i < |b| ==> NumberChar(b[i])
    requires Stops(r) && Stops(s) && a + r == b + s
    ensures a == b && r == s
    decreases |a| + |b|
  {
    assert a == [] ==> a + r == r;
    assert b == [] ==> b + s == s;
    assert a != [] ==> (a + r)[0] == a[0];
    assert b != [] ==> (b + s)[0] == b[0];
    if a != [] && b != [] {
      assert (a + r)[1..] == a[1..] + r && (b + s)[1..] == b[1..] + s;
      NumberEnds(a[1..], b[1..], r, s);
      assert a == [a[0]] + a[1..] && b == [b[0]] + b[1..];
    }
  }

  /** The first character of a value's text tells its kind. */
  lemma FirstChar(v: Value, rest: string)
    requires Sound(v)
    ensures Then(v, rest) != []
    ensures
      var c := Then(v, rest)[0];
      match v
      case Null => c == 'n'
      case Bool(on) => c == if on then 't' else 'f'
      case Number(_) => StartsNumber(c)
      case Text(_) => c == '\"'
      case Array(_) => c == '['
      case Object(_) => c == '{'
  {
  }

  /** A text read from its start can only be one value's. */
  lemma {:induction false} ValuesArePrefixFree(a: Value, b: Value, r: string, s: string)
    requires Sound(a) && Sound(b) && Stops(r) && Stops(s)
    requires Then(a, r) == Then(b, s)
    ensures a == b && r == s
    decreases a, 2
  {
    FirstChar(a, r);
    FirstChar(b, s);
    match a
    case Null => SuffixesAgree("null", r, s);
    case Bool(on) => SuffixesAgree(if on then "true" else "false", r, s);
    case Number(lexeme) => NumberEnds(lexeme, b.lexeme, r, s);
    case Text(text) => TextIsPrefixFree(text, b.text, r, s);
    case Array(items) =>
      SuffixesAgree("[", ItemsThen(items, r), ItemsThen(b.items, s));
      ItemsArePrefixFree(items, b.items, r, s);
    case Object(fields) =>
      SuffixesAgree("{", FieldsThen(fields, r), FieldsThen(b.fields, s));
      FieldsArePrefixFree(fields, b.fields, r, s);
  }

  lemma ItemsArePrefixFree(a: seq<Value>, b: seq<Value>, r: string, s: string)
    requires AllSound(a) && AllSound(b) && ItemsThen(a, r) == ItemsThen(b, s)
    ensures a == b && r == s
    decreases a, 1
  {
    if a != [] && b != [] {
      ItemIsPrefixFree(a, b, r, s);
    } else {
      if a != [] {
        FirstChar(a[0], MoreItems(a[1..], r));
      }
      if b != [] {
        FirstChar(b[0], MoreItems(b[1..], s));
      }
      SuffixesAgree("]", r, s);
    }
  }

  lemma {:induction false} ItemIsPrefixFree(a: seq<Value>, b: seq<Value>, r: string, s: string)
    requires AllSound(a) && AllSound(b) && a != [] && b != []
    requires Then(a[0], MoreItems(a[1..], r)) == Then(b[0], MoreItems(b[1..], s))
    ensures a == b && r == s
    decreases a, 0
  {
    var x, y := MoreItems(a[1..], r), MoreItems(b[1..], s);
    ValuesArePrefixFree(a[0], b[0], x, y);
    assert a == [a[0]] + a[1..] && b == [b[0]] + b[1..];
    if |a| > 1 && |b| > 1 {
      SuffixesAgree(",", Then(a[1], MoreItems(a[2..], r)), Then(b[1], MoreItems(b[2..], s)));
      assert a[1..][1..] == a[2..] && b[1..][1..] == b[2..];
      ItemIsPrefixFree(a[1..], b[1..], r, s);
    } else {
      assert x[0] == if |a| > 1 then ',' else ']';
      assert y[0] == if |b| > 1 then ',' else ']';
      SuffixesAgree("]", r, s);
    }
  }

  lemma FieldsArePrefixFree(a: seq<Field>, b: seq<Field>, r: string, s: string)
    requires FieldsSound(a) && FieldsSound(b) && FieldsThen(a, r) == FieldsThen(b, s)
    ensures a == b && r == s
    decreases a, 1
  {
    if a != [] && b != [] {
      FieldIsPrefixFree(a, b, r, s);
    } else {
      if a != [] {
        FieldStarts(a[0], MoreFields(a[1..], r));
      }
      if b != [] {
        FieldStarts(b[0], MoreFields(b[1..], s));
      }
      SuffixesAgree("}", r, s);
    }
  }

  lemma FieldStarts(f: Field, rest: string)
    ensures FieldThen(f, rest) != [] && FieldThen(f, rest)[0] == '\"'
  {
  }

  lemma {:induction false} FieldIsPrefixFree(a: seq<Field>, b: seq<Field>, r: string, s: string)
    requires FieldsSound(a) && FieldsSound(b) && a != [] && b != []
    requires FieldThen(a[0], MoreFields(a[1..], r)) == FieldThen(b[0], MoreFields(b[1..], s))
    ensures a == b && r == s
    decreases a, 0
  {
    var x, y := MoreFields(a[1..], r), MoreFields(b[1..], s);
    TextIsPrefixFree(a[0].name, b[0].name, ":" + Then(a[0].value, x), ":" + Then(b[0].value, y));
    SuffixesAgree(":", Then(a[0].value, x), Then(b[0].value, y));
    ValuesArePrefixFree(a[0].value, b[0].value, x, y);
    assert a == [a[0]] + a[1..] && b == [b[0]] + b[1..];
    if |a| > 1 && |b| > 1 {
      SuffixesAgree(",", FieldThen(a[1], MoreFields(a[2..], r)), FieldThen(b[1], MoreFields(b[2..], s)));
      assert a[1..][1..] == a[2..] && b[1..][1..] == b[2..];
      FieldIsPrefixFree(a[1..], b[1..], r, s);
    } else {
      assert x[0] == if |a| > 1 then ',' else '}';
      assert y[0] == if |b| > 1 then ',' else '}';
      SuffixesAgree("}", r, s);
    }
  }

  /** Two values print alike only if they are the same. */
  lemma StringifyIsInjective(a: Value, b: Value)
    requires Sound(a) && Sound(b)
    ensures Stringify(a) == Stringify(b) <==> a == b
  {
    if Stringify(a) == Stringify(b) {
      ValuesArePrefixFree(a, b, [], []);
    }
  }

  // ----- what a text never holds -----

  predicate Printable(s: string) {
    forall i :: 0 <= i < |s| ==> s[i] >= ' '
  }

  lemma {:induction false} CharsArePrintable(s: string, rest: string)
    requires Printable(rest)
    ensures Printable(CharsThen(s, rest))
  {
    if s != [] {
      CharsArePrintable(s[1..], rest);
    }
  }

  /** A printed value holds no control character, whatever its strings hold. */
  lemma {:induction false} ValueIsPrintable(v: Value, rest: string)
    requires Sound(v) && Printable(rest)
    ensures Printable(Then(v, rest))
    decreases v, 2
  {
    match v
    case Text(s) => CharsArePrintable(s, rest);
    case Array(items) =>
      if items != [] {
        MoreItemsArePrintable(items[1..], rest);
        ValueIsPrintable(items[0], MoreItems(items[1..], rest));
      }
    case Object(fields) =>
      if fields != [] {
        MoreFieldsArePrintable(fields[1..], rest);
        FieldIsPrintable(fields[0], MoreFields(fields[1..], rest));
      }
    case _ =>
  }

  lemma FieldIsPrintable(f: Field, rest: string)
    requires Sound(f.value) && Printable(rest)
    ensures Printable(FieldThen(f, rest))
    decreases f, 3
  {
    ValueIsPrintable(f.value, rest);
    CharsArePrintable(f.name, ":" + Then(f.value, rest));
  }

  lemma {:induction false} MoreItemsArePrintable(items: seq<Value>, rest: string)
    requires AllSound(items) && Printable(rest)
    ensures Printable(MoreItems(items, rest))
    decreases items, 0
  {
    if items != [] {
      MoreItemsArePrintable(items[1..], rest);
      ValueIsPrintable(items[0], MoreItems(items[1..], rest));
    }
  }

  lemma {:induction false} MoreFieldsArePrintable(fields: seq<Field>, rest: string)
    requires FieldsSound(fields) && Printable(rest)
    ensures Printable(MoreFields(fields, rest))
    decreases fields, 0
  {
    if fields != [] {
      MoreFieldsArePrintable(fields[1..], rest);
      FieldIsPrintable(fields[0], MoreFields(fields[1..], rest));
    }
  }
}
