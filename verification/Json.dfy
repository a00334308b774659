/** JSON values, their canonical text and the proof that the text determines the value. */
module Json {

  datatype Option<+T> = None | Some(value: T)

  /** A printed number is an opaque token over these characters. */
  predicate IsNumberChar(c: char) {
    '0' <= c <= '9' || c == '-' || c == '+' || c == '.' || c == 'e' || c == 'E'
  }

  type NumberToken = t: string | t != "" && forall i | 0 <= i < |t| :: IsNumberChar(t[i]) witness "0"

  /** `Obj` is a finite map, like the B-tree map the program keeps objects in. */
  datatype Json =
    | Null
    | Bool(b: bool)
    | Num(token: NumberToken)
    | Str(text: string)
    | Arr(items: seq<Json>)
    | Obj(fields: map<string, Json>)

  // ---------------------------------------------------------------- key order

  /** Lexicographic order on strings. */
  predicate AtMost(a: string, b: string) {
    a == "" || (b != "" && (a[0] < b[0] || (a[0] == b[0] && AtMost(a[1..], b[1..]))))
  }

  lemma {:induction false} AtMostTotal(a: string, b: string)
    ensures AtMost(a, b) || AtMost(b, a)
    ensures AtMost(a, b) && AtMost(b, a) ==> a == b
  {
    if a != "" && b != "" && a[0] == b[0] {
      AtMostTotal(a[1..], b[1..]);
      if AtMost(a, b) && AtMost(b, a) {
        assert a == [a[0]] + a[1..] && b == [b[0]] + b[1..];
      }
    }
  }

  lemma {:induction false} AtMostTransitive(a: string, b: string, c: string)
    requires AtMost(a, b) && AtMost(b, c)
    ensures AtMost(a, c)
  {
    if a != "" && a[0] == b[0] == c[0] {
      AtMostTransitive(a[1..], b[1..], c[1..]);
    }
  }

  /** The first character that differs decides; without one, the shorter text comes first. */
  lemma {:induction false} AtMostIsLexicographic(a: string, b: string)
    ensures AtMost(a, b) <==> a <= b || exists i :: DiffersFirstAt(a, b, i) && a[i] < b[i]
  {
    if a != "" && b != "" {
      if a[0] != b[0] {
        assert DiffersFirstAt(a, b, 0);
      } else {
        var x, y := a[1..], b[1..];
        AtMostIsLexicographic(x, y);
        assert a == [a[0]] + x && b == [b[0]] + y;
        forall i ensures DiffersFirstAt(x, y, i) <==> DiffersFirstAt(a, b, i + 1) {
          if 0 <= i < |x| && i < |y| { assert a[..i + 1] == [a[0]] + x[..i] && b[..i + 1] == [b[0]] + y[..i]; }
          if DiffersFirstAt(a, b, i + 1) { assert x[..i] == a[..i + 1][1..] && y[..i] == b[..i + 1][1..]; }
        }
        if i :| DiffersFirstAt(x, y, i) && x[i] < y[i] { assert DiffersFirstAt(a, b, i + 1); }
        if i :| DiffersFirstAt(a, b, i) && a[i] < b[i] { assert DiffersFirstAt(x, y, i - 1); }
      }
    }
  }

  ghost predicate DiffersFirstAt(a: string, b: string, i: int) {
    0 <= i < |a| && i < |b| && a[..i] == b[..i] && a[i] != b[i]
  }

  ghost predicate IsLeast(k: string, keys: set<string>) {
    k in keys && forall j | j in keys :: AtMost(k, j)
  }

  lemma {:induction false} LeastExists(keys: set<string>)
    requires keys != {}
    ensures exists k :: IsLeast(k, keys)
  {
    var k :| k in keys;
    if keys == {k} {
      AtMostTotal(k, k);
      assert IsLeast(k, keys);
    } else {
      LeastExists(keys - {k});
      var l :| IsLeast(l, keys - {k});
      AtMostTotal(k, l);
      AtMostTotal(k, k);
      var m := if AtMost(k, l) then k else l;
      forall j | j in keys ensures AtMost(m, j) {
        if j != k && m == k { AtMostTransitive(k, l, j); }
      }
      assert IsLeast(m, keys);
    }
  }

  /** The keys of an object in ascending order. */
  ghost function SortedKeys(keys: set<string>): (ks: seq<string>)
    ensures forall k :: k in ks <==> k in keys
  {
    if keys == {} then [] else
      LeastExists(keys);
      var k :| IsLeast(k, keys);
      [k] + SortedKeys(keys - {k})
  }

  ghost predicate Ascending(ks: seq<string>) {
    forall i, j | 0 <= i < j < |ks| :: AtMost(ks[i], ks[j]) && ks[i] != ks[j]
  }

  lemma LeastComesFirst(k: string, ks: seq<string>)
    requires Ascending(ks) && forall j | j in ks :: AtMost(k, j) && j != k
    ensures Ascending([k] + ks)
  {
    var all := [k] + ks;
    forall i, j | 0 <= i < j < |all| ensures AtMost(all[i], all[j]) && all[i] != all[j] {
      assert all[j] == ks[j - 1] && ks[j - 1] in ks;
      if i > 0 { assert all[i] == ks[i - 1]; }
    }
  }

  /** The keys come once each and in ascending order. */
  lemma {:induction false} SortedKeysAscend(keys: set<string>)
    ensures |SortedKeys(keys)| == |keys| && Ascending(SortedKeys(keys))
  {
    if keys != {} {
      LeastExists(keys);
      var k :| IsLeast(k, keys) && SortedKeys(keys) == [k] + SortedKeys(keys - {k});
      SortedKeysAscend(keys - {k});
      LeastComesFirst(k, SortedKeys(keys - {k}));
    }
  }

  function Insert(k: string, ks: seq<string>): seq<string> {
    if ks == [] || AtMost(k, ks[0]) then [k] + ks else [ks[0]] + Insert(k, ks[1..])
  }

  /** `keys.sort()` over the keys in whatever order the map yields them. */
  function Sort(ks: seq<string>): seq<string> {
    if ks == [] then [] else Insert(ks[0], Sort(ks[1..]))
  }

  lemma SortedKeysHead(keys: set<string>, k: string)
    requires IsLeast(k, keys)
    ensures SortedKeys(keys) == [k] + SortedKeys(keys - {k})
  {
    LeastExists(keys);
    var l :| IsLeast(l, keys) && SortedKeys(keys) == [l] + SortedKeys(keys - {l});
    AtMostTotal(k, l);
  }

  lemma {:induction false} InsertIntoSorted(k: string, keys: set<string>)
    requires k !in keys
    ensures Insert(k, SortedKeys(keys)) == SortedKeys(keys + {k})
  {
    AtMostTotal(k, k);
    if keys == {} {
      SortedKeysHead({k}, k);
      assert keys + {k} == {k} && {k} - {k} == {};
    } else {
      LeastExists(keys);
      var first :| IsLeast(first, keys);
      SortedKeysHead(keys, first);
      var rest := SortedKeys(keys - {first});
      assert SortedKeys(keys)[1..] == rest;
      if AtMost(k, first) {
        InsertBelow(k, first, keys);
      } else {
        InsertIntoSorted(k, keys - {first});
        InsertAbove(k, first, keys);
      }
    }
  }

  lemma InsertBelow(k: string, first: string, keys: set<string>)
    requires k !in keys && IsLeast(first, keys) && AtMost(k, first)
    ensures SortedKeys(keys + {k}) == [k] + SortedKeys(keys)
  {
    AtMostTotal(k, k);
    forall j | j in keys ensures AtMost(k, j) { AtMostTransitive(k, first, j); }
    SortedKeysHead(keys + {k}, k);
    assert keys + {k} - {k} == keys;
  }

  lemma InsertAbove(k: string, first: string, keys: set<string>)
    requires k !in keys && IsLeast(first, keys) && !AtMost(k, first)
    ensures SortedKeys(keys + {k}) == [first] + SortedKeys(keys - {first} + {k})
  {
    AtMostTotal(k, first);
    SortedKeysHead(keys + {k}, first);
    assert keys - {first} + {k} == keys + {k} - {first};
  }

  /** Sorting forgets the order the keys arrived in: any duplicate-free listing of a
      key set sorts to the same sequence. */
  lemma {:induction false} SortForgetsOrder(ks: seq<string>)
    requires forall i, j | 0 <= i < j < |ks| :: ks[i] != ks[j]
    ensures Sort(ks) == SortedKeys(set k | k in ks)
  {
    if ks != [] {
      var rest := ks[1..];
      SortForgetsOrder(rest);
      assert forall i | 0 <= i < |rest| :: rest[i] == ks[i + 1];
      assert (set k | k in ks) == (set k | k in rest) + {ks[0]};
      InsertIntoSorted(ks[0], set k | k in rest);
    }
  }

  // ---------------------------------------------------------------- printing

  function HexDigit(n: nat): char
    requires n < 16
  {
    if n < 10 then '0' + n as char else 'a' + (n - 10) as char
  }

  /** String escaping, section 7 of RFC 8259, in the shortest form. */
  function Escape(c: char): string {
    if c == '\"' then "\\\""
    else if c == '\\' then "\\\\"
    else if c == '\n' then "\\n"
    else if c == '\r' then "\\r"
    else if c == '\t' then "\\t"
    else if c as int == 8 then "\\b"
    else if c as int == 12 then "\\f"
    else if c < ' ' then "\\u00" + [HexDigit(c as int / 16), HexDigit(c as int % 16)]
    else [c]
  }

  /** The escaped text of `s` followed by `tail`. */
  function EscapeAll(s: string, tail: string): string {
    if s == "" then tail else Escape(s[0]) + EscapeAll(s[1..], tail)
  }

  function Quote(s: string, tail: string): string {
    ['\"'] + EscapeAll(s, ['\"'] + tail)
  }

  /** The canonical text of `v` followed by `tail`: no white space, object keys in
      ascending order. */
  ghost function Print(v: Json, tail: string): string
    decreases v, 1, 0
  {
    match v
    case Null => "null" + tail
    case Bool(b) => (if b then "true" else "false") + tail
    case Num(t) => t + tail
    case Str(s) => Quote(s, tail)
    case Arr(xs) => ['['] + PrintItems(xs, false, [']'] + tail)
    case Obj(m) => ['{'] + PrintFields(v, SortedKeys(m.Keys), false, ['}'] + tail)
  }

  /** `comma` says whether an element precedes these. */
  ghost function PrintItems(xs: seq<Json>, comma: bool, tail: string): string
    decreases xs, 0, 0
  {
    if xs == [] then tail else
      var rest := Print(xs[0], PrintItems(xs[1..], true, tail));
      if comma then [','] + rest else rest
  }

  ghost function PrintFields(v: Json, ks: seq<string>, comma: bool, tail: string): string
    requires v.Obj? && forall k | k in ks :: k in v.fields
    decreases v, 0, |ks|
  {
    if ks == [] then tail else
      var value := Print(v.fields[ks[0]], PrintFields(v, ks[1..], true, tail));
      var rest := Quote(ks[0], [':'] + value);
      if comma then [','] + rest else rest
  }

  ghost function Canonical(v: Json): string {
    Print(v, "")
  }

  // ---------------------------------------------------------------- unique reading

  lemma Cancel(p: string, q: string, x: string, y: string)
    requires p + x == q + y && |p| == |q|
    ensures p == q && x == y
  {
    assert p == (p + x)[..|p|] && q == (q + y)[..|q|];
    assert x == (p + x)[|p|..] && y == (q + y)[|q|..];
  }

  lemma EscapeReads(c: char, d: char, x: string, y: string)
    requires Escape(c) + x == Escape(d) + y
    ensures c == d && x == y
  {
    var p, q := Escape(c), Escape(d);
    assert (p + x)[0] == p[0] && (q + y)[0] == q[0];
    if |p| > 1 && |q| > 1 {
      assert (p + x)[1] == p[1] && (q + y)[1] == q[1];
    }
    assert |p| == |q|;
    Cancel(p, q, x, y);
    if |p| == 6 { assert p[4] == q[4] && p[5] == q[5]; }
  }

  lemma EscapedHead(s: string, tail: string)
    ensures s != "" ==> EscapeAll(s, tail) != "" && EscapeAll(s, tail)[0] != '\"'
  {
    if s != "" { assert EscapeAll(s, tail)[0] == Escape(s[0])[0]; }
  }

  lemma {:induction false} EscapedReads(s: string, t: string, x: string, y: string)
    requires EscapeAll(s, ['\"'] + x) == EscapeAll(t, ['\"'] + y)
    ensures s == t && x == y
  {
    EscapedHead(s, ['\"'] + x);
    EscapedHead(t, ['\"'] + y);
    if s == "" || t == "" {
      Cancel(['\"'], ['\"'], x, y);
    } else {
      EscapeReads(s[0], t[0], EscapeAll(s[1..], ['\"'] + x), EscapeAll(t[1..], ['\"'] + y));
      EscapedReads(s[1..], t[1..], x, y);
      assert s == [s[0]] + s[1..] && t == [t[0]] + t[1..];
    }
  }

  lemma QuoteReads(s: string, t: string, x: string, y: string)
    requires Quote(s, x) == Quote(t, y)
    ensures s == t && x == y
  {
    Cancel(['\"'], ['\"'], EscapeAll(s, ['\"'] + x), EscapeAll(t, ['\"'] + y));
    EscapedReads(s, t, x, y);
  }

  function HexValue(c: char): Option<nat> {
    if '0' <= c <= '9' then Some((c - '0') as nat)
    else if 'a' <= c <= 'f' then Some((c - 'a') as nat + 10)
    else if 'A' <= c <= 'F' then Some((c - 'A') as nat + 10)
    else None
  }

  /** One character of a string, as section 7 of RFC 8259 reads it, and what comes after. */
  function ReadChar(s: string): Option<(char, string)> {
    if s == "" || s[0] == '\"' || s[0] < ' ' then None
    else if s[0] != '\\' then Some((s[0], s[1..]))
    else if |s| < 2 then None
    else if s[1] in "\"\\/" then Some((s[1], s[2..]))
    else if s[1] == 'b' then Some((8 as char, s[2..]))
    else if s[1] == 'f' then Some((12 as char, s[2..]))
    else if s[1] == 'n' then Some(('\n', s[2..]))
    else if s[1] == 'r' then Some(('\r', s[2..]))
    else if s[1] == 't' then Some(('\t', s[2..]))
    else if s[1] == 'u' && |s| >= 6 && s[2] == s[3] == '0' && HexValue(s[4]).Some? && HexValue(s[5]).Some? then
      Some(((16 * HexValue(s[4]).value + HexValue(s[5]).value) as char, s[6..]))
    else None
  }

  /** What is escaped is read as the character it stands for. */
  lemma EscapeIsRead(c: char, x: string)
    ensures ReadChar(Escape(c) + x) == Some((c, x))
  {
    var e := Escape(c);
    assert (e + x)[|e|..] == x && forall i | 0 <= i < |e| :: (e + x)[i] == e[i];
  }

  /** What may follow a value: nothing, or a character no number contains. */
  ghost predicate Ends(x: string) {
    x == "" || !IsNumberChar(x[0])
  }

  /** How many leading characters belong to a number. */
  function NumberSpan(s: string): nat {
    if s == "" || !IsNumberChar(s[0]) then 0 else 1 + NumberSpan(s[1..])
  }

  lemma {:induction false} SpanOfToken(t: string, x: string)
    requires (forall i | 0 <= i < |t| :: IsNumberChar(t[i])) && Ends(x)
    ensures NumberSpan(t + x) == |t|
  {
    if t == "" {
      assert t + x == x;
    } else {
      assert (t + x)[1..] == t[1..] + x;
      SpanOfToken(t[1..], x);
    }
  }

  lemma NumberReads(t: NumberToken, u: NumberToken, x: string, y: string)
    requires t + x == u + y && Ends(x) && Ends(y)
    ensures t == u && x == y
  {
    SpanOfToken(t, x);
    SpanOfToken(u, y);
    Cancel(t, u, x, y);
  }

  predicate HeadOf(v: Json, c: char) {
    match v
    case Null => c == 'n'
    case Bool(b) => c == (if b then 't' else 'f')
    case Num(_) => IsNumberChar(c)
    case Str(_) => c == '\"'
    case Arr(_) => c == '['
    case Obj(_) => c == '{'
  }

  /** The first character of a text tells which kind of value was printed. */
  lemma PrintHead(v: Json, tail: string)
    ensures Print(v, tail) != "" && HeadOf(v, Print(v, tail)[0])
  {
  }

  lemma ItemsHead(xs: seq<Json>, comma: bool, tail: string)
    requires xs != []
    ensures var text := PrintItems(xs, comma, tail); text != "" && text[0] != ']'
  {
    PrintHead(xs[0], PrintItems(xs[1..], true, tail));
  }

  lemma FieldsHead(v: Json, ks: seq<string>, comma: bool, tail: string)
    requires v.Obj? && (forall k | k in ks :: k in v.fields) && ks != []
    ensures var text := PrintFields(v, ks, comma, tail); text != "" && text[0] != '}'
  {
    var rest := Quote(ks[0], [':'] + Print(v.fields[ks[0]], PrintFields(v, ks[1..], true, tail)));
    assert PrintFields(v, ks, comma, tail) == if comma then [','] + rest else rest;
  }

  /** Reading a printed value back: the value and the text after it are determined. */
  lemma {:induction false} PrintReads(a: Json, b: Json, x: string, y: string)
    requires Print(a, x) == Print(b, y) && Ends(x) && Ends(y)
    ensures a == b && x == y
    decreases a, 1, 0
  {
    PrintHead(a, x);
    PrintHead(b, y);
    match a {
      case Null => Cancel("null", "null", x, y);
      case Bool(t) =>
        var word := if t then "true" else "false";
        Cancel(word, word, x, y);
      case Num(t) => NumberReads(t, b.token, x, y);
      case Str(s) => QuoteReads(s, b.text, x, y);
      case Arr(xs) =>
        Cancel(['['], ['['], PrintItems(xs, false, [']'] + x), PrintItems(b.items, false, [']'] + y));
        ItemsRead(xs, b.items, false, x, y);
      case Obj(m) => ObjectsRead(a, b, x, y);
    }
  }

  lemma {:induction false} ItemsRead(xs: seq<Json>, ys: seq<Json>, comma: bool, x: string, y: string)
    requires PrintItems(xs, comma, [']'] + x) == PrintItems(ys, comma, [']'] + y)
    ensures xs == ys && x == y
    decreases xs, 0, 0
  {
    if xs != [] { ItemsHead(xs, comma, [']'] + x); }
    if ys != [] { ItemsHead(ys, comma, [']'] + y); }
    if xs == [] || ys == [] {
      Cancel([']'], [']'], x, y);
    } else {
      var l, r := PrintItems(xs[1..], true, [']'] + x), PrintItems(ys[1..], true, [']'] + y);
      if comma { Cancel([','], [','], Print(xs[0], l), Print(ys[0], r)); }
      PrintReads(xs[0], ys[0], l, r);
      ItemsRead(xs[1..], ys[1..], true, x, y);
      assert xs == [xs[0]] + xs[1..] && ys == [ys[0]] + ys[1..];
    }
  }

  lemma {:induction false} ObjectsRead(a: Json, b: Json, x: string, y: string)
    requires a.Obj? && b.Obj? && Print(a, x) == Print(b, y)
    ensures a == b && x == y
    decreases a, 0, |SortedKeys(a.fields.Keys)| + 1
  {
    var ka, kb := SortedKeys(a.fields.Keys), SortedKeys(b.fields.Keys);
    Cancel(['{'], ['{'], PrintFields(a, ka, false, ['}'] + x), PrintFields(b, kb, false, ['}'] + y));
    FieldsRead(a, ka, b, kb, false, x, y);
    forall k ensures k in a.fields <==> k in b.fields {
      assert k in ka <==> k in kb;
    }
    assert a.fields == b.fields;
  }

  lemma {:induction false} FieldsRead(a: Json, ka: seq<string>, b: Json, kb: seq<string>,
                                      comma: bool, x: string, y: string)
    requires a.Obj? && b.Obj?
    requires (forall k | k in ka :: k in a.fields) && (forall k | k in kb :: k in b.fields)
    requires PrintFields(a, ka, comma, ['}'] + x) == PrintFields(b, kb, comma, ['}'] + y)
    ensures ka == kb && x == y && forall k | k in ka :: a.fields[k] == b.fields[k]
    decreases a, 0, |ka|
  {
    if ka != [] { FieldsHead(a, ka, comma, ['}'] + x); }
    if kb != [] { FieldsHead(b, kb, comma, ['}'] + y); }
    if ka == [] || kb == [] {
      Cancel(['}'], ['}'], x, y);
    } else {
      var l, r := PrintFields(a, ka[1..], true, ['}'] + x), PrintFields(b, kb[1..], true, ['}'] + y);
      var v, w := Print(a.fields[ka[0]], l), Print(b.fields[kb[0]], r);
      if comma { Cancel([','], [','], Quote(ka[0], [':'] + v), Quote(kb[0], [':'] + w)); }
      QuoteReads(ka[0], kb[0], [':'] + v, [':'] + w);
      Cancel([':'], [':'], v, w);
      PrintReads(a.fields[ka[0]], b.fields[kb[0]], l, r);
      FieldsRead(a, ka[1..], b, kb[1..], true, x, y);
      assert ka == [ka[0]] + ka[1..] && kb == [kb[0]] + kb[1..];
    }
  }

  /** Equal canonical text means equal values. */
  lemma CanonicalTextDeterminesValue(a: Json, b: Json)
    ensures Canonical(a) == Canonical(b) <==> a == b
  {
    if Canonical(a) == Canonical(b) {
      PrintReads(a, b, "", "");
    }
  }

  /** A reader of JSON text that gives back every value from its canonical text.
      Nothing is said about any other text. */
  ghost predicate ReadsBack(parse: string -> Option<Json>) {
    forall v :: parse(Canonical(v)) == Some(v)
  }

  /** The reader that knows the canonical texts and no other. */
  ghost function CanonicalReader(): (parse: string -> Option<Json>) {
    s => if exists v :: Canonical(v) == s then (var v :| Canonical(v) == s; Some(v)) else None
  }

  lemma CanonicalReaderReadsBack()
    ensures ReadsBack(CanonicalReader())
  {
    forall v ensures CanonicalReader()(Canonical(v)) == Some(v) {
      var w :| Canonical(w) == Canonical(v) && CanonicalReader()(Canonical(v)) == Some(w);
      CanonicalTextDeterminesValue(v, w);
    }
  }
}
