/** Finding the JSON object inside a model's answer. */
module Extract {
  import opened Json
  import opened Text

  const FENCE := "```"

  /** The text after the first line break, or all of it when there is none. */
  function AfterLine(s: string): (body: Option<string>) {
    if s == "" then None
    else if s[0] == '\n' then Some(s[1..])
    else AfterLine(s[1..])
  }

  function DropSuffix(s: string, suffix: string): string {
    if |suffix| <= |s| && s[|s| - |suffix|..] == suffix then s[..|s| - |suffix|] else s
  }

  function StripCodeFence(raw: string): string {
    var trimmed := Trim(raw);
    if FENCE <= trimmed then
      var rest := trimmed[|FENCE|..];
      var body := match AfterLine(rest) case Some(b) => b case None => rest;
      Trim(DropSuffix(body, FENCE))
    else trimmed
  }

  /** Drops everything before the first opening brace. */
  function FromBrace(s: string): string {
    if s == "" || s[0] == '{' then s else FromBrace(s[1..])
  }

  /** The text left over once the object opened at nesting `depth` closes, if it does. */
  function Close(s: string, depth: nat, inString: bool, escaped: bool): (rest: Option<string>)
    ensures rest.Some? ==> |rest.value| < |s|
  {
    if s == "" then None
    else if inString then
      if escaped then Close(s[1..], depth, true, false)
      else Close(s[1..], depth, s[0] != '\"', s[0] == '\\')
    else if s[0] == '\"' then Close(s[1..], depth, true, escaped)
    else if s[0] == '{' then Close(s[1..], depth + 1, false, escaped)
    else if s[0] == '}' then
      var d := if depth == 0 then 0 else depth - 1;
      if d == 0 then Some(s[1..]) else Close(s[1..], d, false, escaped)
    else Close(s[1..], depth, false, escaped)
  }

  /** The first object of a text: from its first brace to the matching one. */
  function FirstObject(parse: string -> Option<Json>, text: string): Option<Json> {
    var s := FromBrace(text);
    match Close(s, 0, false, false)
    case None => None
    case Some(rest) => parse(s[..|s| - |rest|])
  }

  method ExtractJsonObject(parse: string -> Option<Json>, raw: string) returns (found: Option<Json>)
    ensures found == FirstObject(parse, StripCodeFence(raw))
  {
    var chars := StripCodeFence(raw);
    var start := 0;
    while start < |chars| && chars[start] != '{'
      invariant start <= |chars| && FromBrace(chars) == FromBrace(chars[start..])
    {
      assert chars[start..][1..] == chars[start + 1..];
      start := start + 1;
    }
    if start == |chars| { return None; }
    var depth: nat := 0;
    var inString, escaped := false, false;
    var index := start;
    while index < |chars|
      invariant start <= index <= |chars|
      invariant Close(chars[start..], 0, false, false) == Close(chars[index..], depth, inString, escaped)
    {
      var character := chars[index];
      assert chars[index..][1..] == chars[index + 1..];
      if inString {
        if escaped { escaped := false; }
        else if character == '\\' { escaped := true; }
        else if character == '\"' { inString := false; }
      } else if character == '\"' {
        inString := true;
      } else if character == '{' {
        depth := depth + 1;
      } else if character == '}' {
        depth := if depth == 0 then 0 else depth - 1;
        if depth == 0 {
          assert chars[start..][..index + 1 - start] == chars[start..index + 1];
          return parse(chars[start..index + 1]);
        }
      }
      index := index + 1;
    }
    return None;
  }

  // ---------------------------------------------------------------- printed objects

  /** Inside a string literal no quote, brace or backslash of the text is mistaken for
      structure. */
  lemma {:induction false} CloseSkipsString(s: string, k: string, depth: nat)
    ensures Close(EscapeAll(s, ['\"'] + k), depth, true, false) == Close(k, depth, false, false)
  {
    if s != "" {
      var rest := EscapeAll(s[1..], ['\"'] + k);
      CloseSkipsEscape(s[0], rest, depth);
      CloseSkipsString(s[1..], k, depth);
    }
  }

  lemma CloseSkipsEscape(c: char, rest: string, depth: nat)
    ensures Close(Escape(c) + rest, depth, true, false) == Close(rest, depth, true, false)
  {
    var e := Escape(c);
    var s := e + rest;
    assert |e| == 1 ==> s[1..] == rest;
    if |e| >= 2 {
      assert s[1..][1..] == s[2..];
      if |e| == 6 {
        assert s[2..] == [e[2], e[3], e[4], e[5]] + rest;
        CloseSkipsPlain([e[2], e[3], e[4], e[5]], rest, depth, true);
      } else {
        assert s[2..] == rest;
      }
    }
  }

  lemma {:induction false} CloseSkipsPlain(w: string, k: string, depth: nat, inString: bool)
    requires forall i | 0 <= i < |w| :: w[i] !in {'\"', '\\', '{', '}'}
    ensures Close(w + k, depth, inString, false) == Close(k, depth, inString, false)
  {
    if w == "" {
      assert w + k == k;
    } else {
      assert (w + k)[1..] == w[1..] + k;
      CloseSkipsPlain(w[1..], k, depth, inString);
    }
  }

  lemma CloseSkipsQuote(s: string, k: string, depth: nat)
    ensures Close(Quote(s, k), depth, false, false) == Close(k, depth, false, false)
  {
    assert Quote(s, k)[1..] == EscapeAll(s, ['\"'] + k);
    CloseSkipsString(s, k, depth);
  }

  /** A printed value is balanced: scanning it inside an object leaves the nesting as it was. */
  lemma {:induction false} CloseSkipsValue(v: Json, k: string, depth: nat)
    requires depth > 0
    ensures Close(Print(v, k), depth, false, false) == Close(k, depth, false, false)
    decreases v, 1, 0
  {
    match v {
      case Null => CloseSkipsPlain("null", k, depth, false);
      case Bool(b) => CloseSkipsPlain(if b then "true" else "false", k, depth, false);
      case Num(t) => CloseSkipsPlain(t, k, depth, false);
      case Str(s) => CloseSkipsQuote(s, k, depth);
      case Arr(xs) =>
        assert Print(v, k)[1..] == PrintItems(xs, false, [']'] + k);
        CloseSkipsItems(xs, false, [']'] + k, depth);
        assert (([']'] + k)[1..]) == k;
      case Obj(m) =>
        var ks := SortedKeys(m.Keys);
        assert Print(v, k)[1..] == PrintFields(v, ks, false, ['}'] + k);
        CloseSkipsFields(v, ks, false, ['}'] + k, depth + 1);
        assert ((['}'] + k)[1..]) == k;
    }
  }

  lemma {:induction false} CloseSkipsItems(xs: seq<Json>, comma: bool, k: string, depth: nat)
    requires depth > 0
    ensures Close(PrintItems(xs, comma, k), depth, false, false) == Close(k, depth, false, false)
    decreases xs, 0, 0
  {
    if xs != [] {
      var tail := PrintItems(xs[1..], true, k);
      if comma { CloseSkipsPlain([','], Print(xs[0], tail), depth, false); }
      CloseSkipsValue(xs[0], tail, depth);
      CloseSkipsItems(xs[1..], true, k, depth);
    }
  }

  lemma {:induction false} CloseSkipsFields(v: Json, ks: seq<string>, comma: bool, k: string, depth: nat)
    requires v.Obj? && (forall k | k in ks :: k in v.fields) && depth > 0
    ensures Close(PrintFields(v, ks, comma, k), depth, false, false) == Close(k, depth, false, false)
    decreases v, 0, |ks|
  {
    if ks != [] {
      var tail := PrintFields(v, ks[1..], true, k);
      var value := Print(v.fields[ks[0]], tail);
      if comma { CloseSkipsPlain([','], Quote(ks[0], [':'] + value), depth, false); }
      CloseSkipsQuote(ks[0], [':'] + value, depth);
      CloseSkipsPlain([':'], value, depth, false);
      CloseSkipsValue(v.fields[ks[0]], tail, depth);
      CloseSkipsFields(v, ks[1..], true, k, depth);
    }
  }

  /** A printed object closes exactly at its own last brace. */
  lemma ObjectCloses(v: Json, k: string)
    requires v.Obj?
    ensures Close(Print(v, k), 0, false, false) == Some(k)
  {
    var ks := SortedKeys(v.fields.Keys);
    assert Print(v, k)[1..] == PrintFields(v, ks, false, ['}'] + k);
    CloseSkipsFields(v, ks, false, ['}'] + k, 1);
    assert (['}'] + k)[1..] == k;
  }

  // ---------------------------------------------------------------- text around the object

  lemma {:induction false} EscapeAllAppends(s: string, x: string, k: string)
    ensures EscapeAll(s, x + k) == EscapeAll(s, x) + k
  {
    if s != "" {
      EscapeAllAppends(s[1..], x, k);
    }
  }

  lemma QuoteAppends(s: string, x: string, k: string)
    ensures Quote(s, x + k) == Quote(s, x) + k
  {
    assert ['\"'] + (x + k) == (['\"'] + x) + k;
    EscapeAllAppends(s, ['\"'] + x, k);
  }

  lemma {:induction false} PrintAppends(v: Json, x: string, k: string)
    ensures Print(v, x + k) == Print(v, x) + k
    decreases v, 1, 0
  {
    match v {
      case Str(s) => QuoteAppends(s, x, k);
      case Arr(xs) =>
        assert [']'] + (x + k) == ([']'] + x) + k;
        ItemsAppend(xs, false, [']'] + x, k);
      case Obj(m) =>
        assert ['}'] + (x + k) == (['}'] + x) + k;
        FieldsAppend(v, SortedKeys(m.Keys), false, ['}'] + x, k);
      case _ =>
    }
  }

  lemma {:induction false} ItemsAppend(xs: seq<Json>, comma: bool, x: string, k: string)
    ensures PrintItems(xs, comma, x + k) == PrintItems(xs, comma, x) + k
    decreases xs, 0, 0
  {
    if xs != [] {
      ItemsAppend(xs[1..], true, x, k);
      PrintAppends(xs[0], PrintItems(xs[1..], true, x), k);
    }
  }

  lemma {:induction false} FieldsAppend(v: Json, ks: seq<string>, comma: bool, x: string, k: string)
    requires v.Obj? && forall k | k in ks :: k in v.fields
    ensures PrintFields(v, ks, comma, x + k) == PrintFields(v, ks, comma, x) + k
    decreases v, 0, |ks|
  {
    if ks != [] {
      FieldsAppend(v, ks[1..], true, x, k);
      var tail := PrintFields(v, ks[1..], true, x);
      PrintAppends(v.fields[ks[0]], tail, k);
      var value := Print(v.fields[ks[0]], tail);
      assert [':'] + (value + k) == ([':'] + value) + k;
      QuoteAppends(ks[0], [':'] + value, k);
    }
  }

  lemma {:induction false} FromBraceSkips(prose: string, s: string)
    requires '{' !in prose && s != "" && s[0] == '{'
    ensures FromBrace(prose + s) == s
  {
    if prose == "" {
      assert prose + s == s;
    } else {
      assert (prose + s)[1..] == prose[1..] + s;
      FromBraceSkips(prose[1..], s);
    }
  }

  /** Brace-free prose before the object and any text after it make no difference. */
  lemma FirstObjectFound(parse: string -> Option<Json>, prose: string, v: Json, suffix: string)
    requires ReadsBack(parse) && v.Obj? && '{' !in prose
    ensures FirstObject(parse, prose + Canonical(v) + suffix) == Some(v)
  {
    PrintAppends(v, "", suffix);
    assert "" + suffix == suffix;
    var s := Print(v, suffix);
    assert s == Canonical(v) + suffix;
    PrintHead(v, suffix);
    assert prose + Canonical(v) + suffix == prose + s;
    FromBraceSkips(prose, s);
    ObjectCloses(v, suffix);
    assert s[..|s| - |suffix|] == Canonical(v);
  }

  /** A printed object starts with its opening brace and ends with its closing one. */
  lemma ObjectEdges(v: Json)
    requires v.Obj?
    ensures Canonical(v) != "" && Canonical(v)[0] == '{' && Canonical(v)[|Canonical(v)| - 1] == '}'
  {
    PrintHead(v, "");
    var ks := SortedKeys(v.fields.Keys);
    assert "" + (['}'] + "") == ['}'] + "";
    FieldsAppend(v, ks, false, "", ['}'] + "");
    assert Canonical(v) == ['{'] + PrintFields(v, ks, false, "") + ['}'];
  }

  lemma {:induction false} AfterLineSkips(info: string, body: string)
    requires '\n' !in info
    ensures AfterLine(info + "\n" + body) == Some(body)
  {
    var s := info + "\n" + body;
    if info == "" {
      assert s[1..] == body;
    } else {
      assert s[1..] == info[1..] + "\n" + body;
      AfterLineSkips(info[1..], body);
    }
  }

  lemma TrimAround(prose: string, v: Json, suffix: string)
    requires v.Obj?
    ensures Trim(prose + Canonical(v) + suffix) == TrimStart(prose) + Canonical(v) + TrimEnd(suffix)
  {
    ObjectEdges(v);
    var c := Canonical(v);
    assert prose + c + suffix == prose + (c + suffix);
    TrimStartStops(prose, c + suffix);
    var p := TrimStart(prose) + c;
    assert p[|p| - 1] == c[|c| - 1];
    assert TrimStart(prose) + (c + suffix) == p + suffix;
    TrimEndStops(p, suffix);
  }

  lemma DropSuffixAfterObject(p: string, suffix: string)
    requires p != "" && p[|p| - 1] == '}'
    ensures DropSuffix(p + suffix, FENCE) == p + DropSuffix(suffix, FENCE)
  {
    var s := p + suffix;
    var n := |s| - |FENCE|;
    if |suffix| < |FENCE| <= |s| {
      assert s[n..][|p| - 1 - n] == '}';
    } else if |FENCE| <= |suffix| {
      assert s[n..] == suffix[|suffix| - |FENCE|..];
      assert s[..n] == p + suffix[..|suffix| - |FENCE|];
    }
  }

  /** An object printed into an unfenced answer is found whatever prose surrounds it. */
  lemma FoundInProse(parse: string -> Option<Json>, prose: string, v: Json, suffix: string)
    requires ReadsBack(parse) && v.Obj? && '{' !in prose && !(FENCE <= TrimStart(prose))
    ensures FirstObject(parse, StripCodeFence(prose + Canonical(v) + suffix)) == Some(v)
  {
    TrimAround(prose, v, suffix);
    ObjectEdges(v);
    TrimStartDrops(prose);
    var p := TrimStart(prose);
    var s := p + Canonical(v) + TrimEnd(suffix);
    assert !(FENCE <= s) by {
      if |p| < |FENCE| { assert s[|p|] == '{'; }
      else { assert s[..|FENCE|] == p[..|FENCE|]; }
    }
    FirstObjectFound(parse, p, v, TrimEnd(suffix));
  }

  lemma TrimWhole(blank: string, front: string, suffix: string)
    requires TrimStart(blank) == ""
    requires front != "" && !IsSpace(front[0]) && !IsSpace(front[|front| - 1])
    ensures Trim(blank + (front + suffix)) == front + TrimEnd(suffix)
  {
    var whole := front + suffix;
    assert whole[0] == front[0];
    TrimStartStops(blank, whole);
    assert "" + whole == whole;
    TrimEndStops(front, suffix);
  }

  lemma TrimBetween(blank: string, head: string, inner: string, suffix: string)
    requires head != "" && !IsSpace(head[0]) && TrimStart(blank) == ""
    requires inner != "" && !IsSpace(inner[|inner| - 1])
    ensures Trim(blank + (head + inner) + suffix) == head + (inner + TrimEnd(suffix))
  {
    var front := head + inner;
    assert front[0] == head[0] && front[|front| - 1] == inner[|inner| - 1];
    TrimWhole(blank, front, suffix);
    Associates(blank, front, suffix);
    Associates(head, inner, TrimEnd(suffix));
  }

  lemma StripFenced(raw: string, info: string, body: string)
    requires Trim(raw) == FENCE + (info + "\n") + body && '\n' !in info
    ensures StripCodeFence(raw) == Trim(DropSuffix(body, FENCE))
  {
    assert Trim(raw)[|FENCE|..] == info + "\n" + body;
    AfterLineSkips(info, body);
  }

  /** A text that is one code fence is stripped to what stands between its marks. */
  lemma FenceIsStripped(info: string, body: string)
    requires '\n' !in info
    ensures StripCodeFence(FENCE + (info + "\n" + (body + FENCE))) == Trim(body)
  {
    var raw := FENCE + (info + "\n" + (body + FENCE));
    TrimEndStops(raw, "");
    assert raw + "" == raw && Trim(raw) == raw;
    StripFenced(raw, info, body + FENCE);
    assert (body + FENCE)[|body|..] == FENCE && (body + FENCE)[..|body|] == body;
  }

  /** The body of a code fence, when it holds a closing brace followed by `suffix`. */
  lemma StripOpensFence(blank: string, info: string, inner: string, suffix: string)
    requires '\n' !in info && inner != "" && inner[|inner| - 1] == '}' && TrimStart(blank) == ""
    ensures StripCodeFence(blank + (FENCE + (info + "\n") + inner) + suffix)
         == Trim(inner + DropSuffix(TrimEnd(suffix), FENCE))
  {
    TrimBetween(blank, FENCE + (info + "\n"), inner, suffix);
    StripFenced(blank + (FENCE + (info + "\n") + inner) + suffix, info, inner + TrimEnd(suffix));
    DropSuffixAfterObject(inner, TrimEnd(suffix));
  }

  /** An object printed inside one code fence is found, whatever the fence's info
      string and whether or not the fence is closed. */
  lemma FoundInFence(parse: string -> Option<Json>, blank: string, info: string, prose: string,
                     v: Json, suffix: string)
    requires ReadsBack(parse) && v.Obj? && '{' !in prose && '\n' !in info
    requires TrimStart(blank) == ""
    ensures FirstObject(parse, StripCodeFence(
              blank + (FENCE + (info + "\n") + (prose + Canonical(v))) + suffix)) == Some(v)
  {
    ObjectEdges(v);
    var inner := prose + Canonical(v);
    assert inner[|inner| - 1] == Canonical(v)[|Canonical(v)| - 1];
    StripOpensFence(blank, info, inner, suffix);
    var suffix' := DropSuffix(TrimEnd(suffix), FENCE);
    TrimAround(prose, v, suffix');
    TrimStartDrops(prose);
    FirstObjectFound(parse, TrimStart(prose), v, TrimEnd(suffix'));
  }
}
