/** Tool data place by place: what validation, canonicalization and redaction say at every path of a document. */
module Documents {
  import opened Json
  import opened Text
  import opened Tools

  // ---------------------------------------------------------------- places

  datatype Step = Key(name: string) | Index(i: nat)

  function Child(v: Json, step: Step): Option<Json> {
    match step
    case Key(k) => if v.Obj? && k in v.fields then Some(v.fields[k]) else None
    case Index(i) => if v.Arr? && i < |v.items| then Some(v.items[i]) else None
  }

  /** What stands at a path of a document. */
  function At(v: Json, path: seq<Step>): Option<Json>
    decreases |path|
  {
    if path == [] then Some(v)
    else match Child(v, path[0])
         case None => None
         case Some(c) => At(c, path[1..])
  }

  /** The schema of a part: fields of objects and items of arrays have one, if the schema of
      the whole gives it. */
  function PartSchema(schema: Json, step: Step): Option<Json> {
    match step
    case Key(k) =>
      if Child(schema, Key("type")) != Some(Str("object")) then None
      else (match Child(schema, Key("properties")) case Some(declared) => Child(declared, step) case None => None)
    case Index(_) =>
      if Child(schema, Key("type")) != Some(Str("array")) then None else Child(schema, Key("items"))
  }

  function SchemaAt(schema: Json, path: seq<Step>): Option<Json>
    decreases |path|
  {
    if path == [] then Some(schema)
    else match PartSchema(schema, path[0])
         case None => None
         case Some(s) => SchemaAt(s, path[1..])
  }

  // ---------------------------------------------------------------- validation

  /** The fields of an object are declared, and those required are there. */
  ghost predicate KeysFit(keys: set<string>, schema: Json) {
    && Child(schema, Key("additionalProperties")) == Some(Bool(false))
    && (match Child(schema, Key("properties"))
        case Some(Obj(declared)) => keys <= declared.Keys
        case _ => false)
    && match Child(schema, Key("required"))
       case Some(Arr(names)) => forall i | 0 <= i < |names| :: names[i].Str? && names[i].text in keys
       case _ => false
  }

  ghost predicate InList(v: Json, list: Option<Json>) {
    list.Some? && list.value.Arr? ==> v in list.value.items
  }

  /** What a schema asks of one value, its parts aside. */
  ghost predicate Fits(v: Json, schema: Json) {
    var kind := Child(schema, Key("type"));
    if kind == Some(Str("object")) then v.Obj? && KeysFit(v.fields.Keys, schema)
    else if kind == Some(Str("array")) then
      v.Arr? && AtLeastBound(schema, "minItems", |v.items|) && AtMostBound(schema, "maxItems", |v.items|)
    else if kind == Some(Str("string")) then
      && v.Str? && AtLeastBound(schema, "minLength", Utf8Len(v.text))
      && AtMostBound(schema, "maxLength", Utf8Len(v.text)) && InList(v, Child(schema, Key("enum")))
    else if kind == Some(Str("integer")) then IsInteger(v)
    else if kind == Some(Str("number")) then v.Num?
    else if kind == Some(Str("boolean")) then v.Bool?
    else kind == Some(Str("null"))
  }

  /** The value at a path fits the schema there, if both exist. */
  ghost predicate FitsAt(v: Json, schema: Json, path: seq<Step>) {
    At(v, path).Some? && SchemaAt(schema, path).Some? ==> Fits(At(v, path).value, SchemaAt(schema, path).value)
  }

  lemma {:induction false} AcceptedFits(v: Json, schema: Json, path: seq<Step>)
    requires AcceptsValue(v, schema)
    ensures FitsAt(v, schema, path)
    decreases |path|
  {
    if path == [] {
      HereFits(v, schema);
    } else if Child(v, path[0]).Some? && PartSchema(schema, path[0]).Some? {
      PartAccepted(v, schema, path[0]);
      AcceptedFits(Child(v, path[0]).value, PartSchema(schema, path[0]).value, path[1..]);
    }
  }

  lemma PartAccepted(v: Json, schema: Json, step: Step)
    requires AcceptsValue(v, schema) && Child(v, step).Some? && PartSchema(schema, step).Some?
    ensures AcceptsValue(Child(v, step).value, PartSchema(schema, step).value)
  {
    assert Get(schema, "items") == Child(schema, Key("items"));
  }

  lemma HereFits(v: Json, schema: Json)
    requires AcceptsValue(v, schema)
    ensures Fits(v, schema)
  {
    if TypeOf(schema) == Some("object") {
      var names := Child(schema, Key("required")).value.items;
      forall i | 0 <= i < |names| ensures names[i].Str? && names[i].text in v.fields {
        assert Required(schema).value[i] == names[i].text;
      }
    }
  }

  lemma {:induction false} FittingIsAccepted(v: Json, schema: Json)
    requires forall path :: FitsAt(v, schema, path)
    ensures AcceptsValue(v, schema)
    decreases v
  {
    assert FitsAt(v, schema, []);
    assert Fits(v, schema);
    if TypeOf(schema) == Some("object") {
      forall k | k in v.fields ensures AcceptsValue(v.fields[k], Properties(schema).value[k]) {
        PartFits(v, schema, Key(k));
        FittingIsAccepted(v.fields[k], Properties(schema).value[k]);
      }
    } else if TypeOf(schema) == Some("array") && Get(schema, "items").Some? {
      forall i | 0 <= i < |v.items| ensures AcceptsValue(v.items[i], Get(schema, "items").value) {
        PartFits(v, schema, Index(i));
        FittingIsAccepted(v.items[i], Get(schema, "items").value);
      }
    }
  }

  lemma PartFits(v: Json, schema: Json, step: Step)
    requires forall path :: FitsAt(v, schema, path)
    requires Child(v, step).Some? && PartSchema(schema, step).Some?
    ensures forall path :: FitsAt(Child(v, step).value, PartSchema(schema, step).value, path)
  {
    forall path ensures FitsAt(Child(v, step).value, PartSchema(schema, step).value, path) {
      assert FitsAt(v, schema, [step] + path);
      assert ([step] + path)[1..] == path;
    }
  }

  /** A value is accepted if and only if at every path it fits what the schema says there. */
  lemma AcceptedIsFittingEverywhere(v: Json, schema: Json)
    ensures AcceptsValue(v, schema) <==> forall path :: FitsAt(v, schema, path)
    ensures AcceptsObject(schema, v) <==> AcceptsValue(v, schema) && TypeOf(schema) == Some("object")
  {
    if AcceptsValue(v, schema) {
      forall path ensures FitsAt(v, schema, path) { AcceptedFits(v, schema, path); }
    } else if forall path :: FitsAt(v, schema, path) {
      FittingIsAccepted(v, schema);
    }
  }

  /** A number in decimal digits. */
  function Decimal(n: nat): (t: NumberToken)
    ensures t[|t| - 1] == '0' + (n % 10) as char
  {
    var last := [('0' + (n % 10) as char)];
    if n < 10 then last else Decimal(n / 10) + last
  }

  lemma {:induction false} DecimalIsRead(n: nat)
    ensures DigitsValue(Decimal(n)) == Some(n) && Decimal(n)[0] != '-'
  {
    var t := Decimal(n);
    if n >= 10 {
      assert t[..|t| - 1] == Decimal(n / 10);
      DecimalIsRead(n / 10);
    } else {
      assert t[..0] == "";
    }
  }

  /** A bound that is an unsigned 64-bit integer holds from there on and up to there; integers
      are the signed and the unsigned ones of 64 bits. */
  lemma BoundsAreRead(schema: Json, key: string, bound: nat, n: nat)
    requires Child(schema, Key(key)) == Some(Num(Decimal(bound)))
    ensures AtLeastBound(schema, key, n) <==> bound < 0x1_0000_0000_0000_0000 ==> bound <= n
    ensures AtMostBound(schema, key, n) <==> bound < 0x1_0000_0000_0000_0000 ==> n <= bound
    ensures IsInteger(Num(Decimal(bound))) <==> bound < 0x1_0000_0000_0000_0000
    ensures IsInteger(Num("-" + Decimal(bound))) <==> bound <= 0x8000_0000_0000_0000
  {
    DecimalIsRead(bound);
    var t := "-" + Decimal(bound);
    assert t[1..] == Decimal(bound);
    SignIsNoDigit(t);
  }

  lemma {:induction false} SignIsNoDigit(t: string)
    requires t != "" && t[0] == '-'
    ensures DigitsValue(t) == None
  {
    if |t| > 1 { SignIsNoDigit(t[..|t| - 1]); }
  }

  // ---------------------------------------------------------------- canonicalization

  /** A text is refused exactly if it holds a control character: one of the first 32, of the 32
      from 80 on (in hexadecimal), or DEL. */
  lemma ControlsAreRefused(nfc: string -> string, s: string)
    ensures Canonicalize(nfc, Str(s)).None?
            <==> exists i | 0 <= i < |s| :: s[i] as int / 32 == 0 || s[i] as int / 32 == 4 || s[i] as int == 127
  {
    assert ControlFree(s) <==> forall i | 0 <= i < |s| :: !IsControl(s[i]);
  }

  /** The same value with its own text normalized; its parts aside. */
  ghost predicate NormalForm(nfc: string -> string, v: Json, w: Json) {
    match v
    case Str(s) => w == Str(nfc(s))
    case Arr(xs) => w.Arr? && |w.items| == |xs|
    case Obj(m) => w.Obj? && w.fields.Keys == m.Keys
    case _ => w == v
  }

  /** Canonical arguments have the paths of the arguments, and at each the same value with its
      text normalized. */
  lemma {:induction false} CanonicalAt(nfc: string -> string, v: Json, path: seq<Step>)
    requires Canonicalize(nfc, v).Some?
    ensures var w := Canonicalize(nfc, v).value;
      && (At(w, path).Some? <==> At(v, path).Some?)
      && (At(v, path).Some? ==> NormalForm(nfc, At(v, path).value, At(w, path).value))
    decreases |path|
  {
    if path != [] && Child(v, path[0]).Some? {
      CanonicalAt(nfc, Child(v, path[0]).value, path[1..]);
    }
  }

  // ---------------------------------------------------------------- redaction

  /** The path leads through no key that is secret. */
  ghost predicate Open(p: Secrets, path: seq<Step>) {
    forall i | 0 <= i < |path| :: path[i].Key? ==> !p.key(path[i].name)
  }

  /** The same value unless it is a secret text; its parts aside. */
  ghost predicate ShownForm(p: Secrets, v: Json, w: Json) {
    match v
    case Str(s) => w == if p.value(s) then Str(REDACTED) else v
    case Arr(xs) => w.Arr? && |w.items| == |xs|
    case Obj(m) => w.Obj? && w.fields.Keys == m.Keys
    case _ => w == v
  }

  /** Redaction changes nothing but secrets: on a path without secret keys stands what stood
      there, and the first secret key of a path holds the mask. */
  lemma {:induction false} RedactedAt(p: Secrets, v: Json, path: seq<Step>, step: Step)
    requires Open(p, path)
    ensures At(Redact(p, v), path).Some? <==> At(v, path).Some?
    ensures At(v, path).Some? ==> ShownForm(p, At(v, path).value, At(Redact(p, v), path).value)
    ensures At(v, path).Some? && step.Key? && p.key(step.name) && Child(At(v, path).value, step).Some?
            ==> Child(At(Redact(p, v), path).value, step) == Some(Str(REDACTED))
    decreases |path|
  {
    if path != [] && Child(v, path[0]).Some? {
      assert Open(p, path[1..]);
      assert path[0].Key? ==> !p.key(path[0].name);
      RedactedAt(p, Child(v, path[0]).value, path[1..], step);
    }
  }

  // ---------------------------------------------------------------- what counts as secret

  /** `b` is `a`, or its lower-case form if it is an upper-case letter of ASCII. */
  predicate Folds(a: char, b: char) {
    if 'A' <= a <= 'Z' then b as int == a as int + 32 else b == a
  }

  lemma {:induction false} LowerFolds(s: string)
    ensures |AsciiLower(s)| == |s| && forall i | 0 <= i < |s| :: Folds(s[i], AsciiLower(s)[i])
  {
    if s != "" { LowerFolds(s[1..]); }
  }

  /** A word stands in a key, in whatever case. */
  ghost predicate WordAt(key: string, word: string, i: nat) {
    i + |word| <= |key| && forall j | 0 <= j < |word| :: Folds(key[i + j], word[j])
  }

  lemma WordIsFound(key: string, word: string, i: nat)
    ensures WordAt(key, word, i) <==> OccursAt(AsciiLower(key), word, i)
  {
    LowerFolds(key);
    var lower := AsciiLower(key);
    if OccursAt(lower, word, i) {
      forall j | 0 <= j < |word| ensures Folds(key[i + j], word[j]) { assert word[j] == lower[i..][j]; }
    }
    if WordAt(key, word, i) {
      forall j | 0 <= j < |word| ensures lower[i + j] == word[j] { assert Folds(key[i + j], word[j]); }
      assert lower[i..][..|word|] == word;
    }
  }

  lemma WordIsContained(key: string, word: string)
    ensures Contains(AsciiLower(key), word) <==> exists i: nat :: WordAt(key, word, i)
  {
    LowerFolds(key);
    if Contains(AsciiLower(key), word) {
      var i: nat :| i <= |key| && OccursAt(AsciiLower(key), word, i);
      WordIsFound(key, word, i);
    }
    if i: nat :| WordAt(key, word, i) { WordIsFound(key, word, i); }
  }

  /** A key is secret exactly if somewhere in it, in whatever case, a sensitive word stands. */
  lemma SensitiveWordsAreSeen(key: string)
    ensures SensitiveKey(key) <==> exists w | w in SENSITIVE_WORDS :: exists i: nat :: WordAt(key, w, i)
  {
    forall w ensures Contains(AsciiLower(key), w) <==> exists i: nat :: WordAt(key, w, i) { WordIsContained(key, w); }
  }

  lemma {:induction false} AfterFirst(s: string, mark: string, rest: string)
    requires mark != "" && mark[0] !in s
    ensures After(s + mark + rest, mark) == Some(rest)
  {
    var whole := s + mark + rest;
    if s == "" {
      assert whole == mark + rest;
    } else {
      assert whole[0] == s[0] && whole[1..] == s[1..] + mark + rest;
      AfterFirst(s[1..], mark, rest);
    }
  }

  lemma {:induction false} UntilStops(s: string, tail: string, stops: set<char>)
    requires (forall c | c in s :: c !in stops) && (tail != "" ==> tail[0] in stops)
    ensures UntilAny(s + tail, stops) == s
  {
    if s == "" {
      assert s + tail == tail;
    } else {
      assert (s + tail)[1..] == s[1..] + tail;
      UntilStops(s[1..], tail, stops);
    }
  }

  /** A URL carries credentials exactly when its authority has an `@` with something before it;
      one in the path, the query or the fragment does not count. */
  lemma CredentialsAreSeen(scheme: string, authority: string, tail: string)
    requires ':' !in scheme && (tail != "" ==> tail[0] in {'/', '?', '#'})
    requires forall c | c in authority :: c !in {'/', '?', '#'}
    ensures CredentialedUrl(scheme + "://" + (authority + tail))
            <==> exists i | 0 <= i < |authority| :: authority[i] == '@' && i > 0
  {
    AfterFirst(scheme, "://", authority + tail);
    UntilStops(authority, tail, {'/', '?', '#'});
  }

  lemma {:induction false} CountIsMultiplicity(s: string, c: char)
    ensures Count(s, c) == multiset(s)[c]
  {
    if s != "" {
      CountIsMultiplicity(s[1..], c);
      assert s == [s[0]] + s[1..];
    }
  }

  lemma {:induction false} BlankTrims(s: string)
    requires forall c | c in s :: IsSpace(c)
    ensures TrimStart(s) == "" && TrimEnd(s) == ""
  {
    if s != "" {
      assert forall c | c in s[1..] :: c in s;
      assert forall c | c in s[..|s| - 1] :: c in s;
      BlankTrims(s[1..]);
      BlankTrims(s[..|s| - 1]);
    }
  }

  /** Text between white space, starting and ending in something printable, is trimmed to. */
  lemma TrimFinds(lead: string, t: string, trail: string)
    requires (forall c | c in lead + trail :: IsSpace(c)) && t != "" && !IsSpace(t[0]) && !IsSpace(t[|t| - 1])
    ensures Trim(lead + (t + trail)) == t
  {
    BlankTrims(lead);
    BlankTrims(trail);
    TrimStartStops(lead, t + trail);
    TrimEndStops(t, trail);
    assert "" + (t + trail) == t + trail && t + "" == t;
  }

  /** A value is secret exactly by its own shape, whatever white space is around it: a bearer
      token, a key block, a known prefix, three parts of a JWT, or a URL with credentials. */
  lemma SecretShapesAreSeen(lead: string, t: string, trail: string)
    requires (forall c | c in lead + trail :: IsSpace(c)) && t != "" && !IsSpace(t[0]) && !IsSpace(t[|t| - 1])
    ensures SensitiveValue(lead + (t + trail)) <==>
      || "Bearer " <= t || Contains(t, "-----BEGIN") || (exists p | p in SECRET_PREFIXES :: p <= t)
      || ("eyJ" <= t && multiset(t)['.'] == 2) || CredentialedUrl(t)
  {
    TrimFinds(lead, t, trail);
    CountIsMultiplicity(t, '.');
  }
}
