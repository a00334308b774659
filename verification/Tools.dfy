/** Tool data: canonicalization, strict validation, projection onto the declared output, redaction. */
module Tools {
  import opened Json
  import opened Text

  datatype ToolError =
    | Unknown
    | NotPermitted
    | NotFound
    | InvalidArguments
    | UpstreamUnavailable
    | UpstreamStatus(status: nat)
    | Timeout
    | RateLimited
    | LimitExceeded
    | ApprovalRequired
    | ApprovalDenied
    | ApprovalExpired
    | ArgumentsChanged
    | ApprovalReplayed
    | ResultTooLarge
    | Internal

  datatype Result<+T> = Ok(value: T) | Err(error: ToolError)

  const MAX_TOOL_ARGUMENT_BYTES := 16 * 1024
  const MAX_TOOL_RESULT_BYTES := 64 * 1024

  // ---------------------------------------------------------------- canonical arguments

  predicate IsControl(c: char) {
    c as int < 0x20 || 0x7F <= c as int <= 0x9F
  }

  predicate ControlFree(s: string) {
    forall i | 0 <= i < |s| :: !IsControl(s[i])
  }

  /** What is used of Unicode NFC: it is idempotent and introduces no control character. */
  ghost predicate IsNormalizer(nfc: string -> string) {
    forall s :: nfc(nfc(s)) == nfc(s) && (ControlFree(s) ==> ControlFree(nfc(s)))
  }

  /** Normalizes every string value; `None` when one holds a control character. Object
      keys are left as they are. */
  function Canonicalize(nfc: string -> string, v: Json): Option<Json> {
    match v
    case Str(s) => if ControlFree(s) then Some(Str(nfc(s))) else None
    case Arr(xs) =>
      if forall i | 0 <= i < |xs| :: Canonicalize(nfc, xs[i]).Some?
      then Some(Arr(seq(|xs|, i requires 0 <= i < |xs| && Canonicalize(nfc, xs[i]).Some? =>
                            Canonicalize(nfc, xs[i]).value)))
      else None
    case Obj(m) =>
      if forall k | k in m :: Canonicalize(nfc, m[k]).Some?
      then Some(Obj(map k | k in m :: Canonicalize(nfc, m[k]).value))
      else None
    case _ => Some(v)
  }

  /** Every string value satisfies `p`. */
  ghost predicate AllStrings(p: string -> bool, v: Json) {
    match v
    case Str(s) => p(s)
    case Arr(xs) => forall i | 0 <= i < |xs| :: AllStrings(p, xs[i])
    case Obj(m) => forall k | k in m :: AllStrings(p, m[k])
    case _ => true
  }

  /** Arguments are refused exactly when some string value holds a control character. */
  lemma {:induction false} CanonicalizeRefuses(nfc: string -> string, v: Json)
    ensures Canonicalize(nfc, v).Some? <==> AllStrings(ControlFree, v)
  {
    match v {
      case Arr(xs) => forall i | 0 <= i < |xs| { CanonicalizeRefuses(nfc, xs[i]); }
      case Obj(m) => forall k | k in m { CanonicalizeRefuses(nfc, m[k]); }
      case _ =>
    }
  }

  /** Canonicalizing again changes nothing. */
  lemma {:induction false} CanonicalizeTwice(nfc: string -> string, v: Json)
    requires IsNormalizer(nfc) && Canonicalize(nfc, v).Some?
    ensures Canonicalize(nfc, Canonicalize(nfc, v).value) == Canonicalize(nfc, v)
  {
    var w := Canonicalize(nfc, v).value;
    match v {
      case Str(s) => assert nfc(nfc(s)) == nfc(s) && ControlFree(nfc(s));
      case Arr(xs) =>
        forall i | 0 <= i < |xs|
          ensures Canonicalize(nfc, w.items[i]) == Some(w.items[i])
        {
          CanonicalizeTwice(nfc, xs[i]);
        }
        assert Canonicalize(nfc, w).value.items == w.items;
      case Obj(m) =>
        forall k | k in m
          ensures Canonicalize(nfc, w.fields[k]) == Some(w.fields[k])
        {
          CanonicalizeTwice(nfc, m[k]);
        }
        assert Canonicalize(nfc, w).value.fields == w.fields;
      case _ =>
    }
  }

  // ---------------------------------------------------------------- validation

  function Get(v: Json, key: string): Option<Json> {
    if v.Obj? && key in v.fields then Some(v.fields[key]) else None
  }

  function TypeOf(schema: Json): Option<string> {
    match Get(schema, "type")
    case Some(Str(t)) => Some(t)
    case _ => None
  }

  function Properties(schema: Json): Option<map<string, Json>> {
    match Get(schema, "properties")
    case Some(Obj(m)) => Some(m)
    case _ => None
  }

  function Required(schema: Json): Option<seq<string>> {
    match Get(schema, "required")
    case Some(Arr(xs)) =>
      if forall i | 0 <= i < |xs| :: xs[i].Str?
      then Some(seq(|xs|, i requires 0 <= i < |xs| && xs[i].Str? => xs[i].text))
      else None
    case _ => None
  }

  function DigitsValue(t: string): Option<nat> {
    if t == "" then Some(0)
    else if !('0' <= t[|t| - 1] <= '9') then None
    else match DigitsValue(t[..|t| - 1])
         case None => None
         case Some(n) => Some(10 * n + (t[|t| - 1] - '0') as nat)
  }

  /** The numbers held as unsigned 64-bit integers. */
  function AsU64(v: Json): Option<nat> {
    if v.Num? then
      match DigitsValue(v.token)
      case Some(n) => if n < 0x1_0000_0000_0000_0000 then Some(n) else None
      case None => None
    else None
  }

  predicate IsInteger(v: Json) {
    AsU64(v).Some?
    || (v.Num? && |v.token| > 1 && v.token[0] == '-'
        && match DigitsValue(v.token[1..])
           case Some(n) => n <= 0x8000_0000_0000_0000
           case None => false)
  }

  /** A bound given by the schema holds; a bound that is absent or no integer is ignored. */
  predicate AtLeastBound(schema: Json, key: string, n: nat) {
    match Get(schema, key)
    case Some(b) => AsU64(b).Some? ==> AsU64(b).value <= n
    case None => true
  }

  predicate AtMostBound(schema: Json, key: string, n: nat) {
    match Get(schema, key)
    case Some(b) => AsU64(b).Some? ==> n <= AsU64(b).value
    case None => true
  }

  predicate InEnum(schema: Json, v: Json) {
    match Get(schema, "enum")
    case Some(Arr(allowed)) => v in allowed
    case _ => true
  }

  predicate AcceptsObject(schema: Json, args: Json)
    decreases args, 0
  {
    && TypeOf(schema) == Some("object")
    && Get(schema, "additionalProperties") == Some(Bool(false))
    && args.Obj?
    && Properties(schema).Some?
    && Required(schema).Some?
    && (forall k | k in Required(schema).value :: k in args.fields)
    && forall k | k in args.fields ::
         k in Properties(schema).value && AcceptsValue(args.fields[k], Properties(schema).value[k])
  }

  predicate AcceptsValue(v: Json, schema: Json)
    decreases v, 1
  {
    match TypeOf(schema)
    case None => false
    case Some(t) =>
      if t == "string" then
        v.Str? && AtLeastBound(schema, "minLength", Utf8Len(v.text))
        && AtMostBound(schema, "maxLength", Utf8Len(v.text)) && InEnum(schema, v)
      else if t == "integer" then IsInteger(v)
      else if t == "number" then v.Num?
      else if t == "boolean" then v.Bool?
      else if t == "array" then
        v.Arr? && AtLeastBound(schema, "minItems", |v.items|) && AtMostBound(schema, "maxItems", |v.items|)
        && match Get(schema, "items")
           case Some(item) => forall i | 0 <= i < |v.items| :: AcceptsValue(v.items[i], item)
           case None => true
      else if t == "object" then AcceptsObject(schema, v)
      else t == "null"
  }

  // ---------------------------------------------------------------- projection

  /** Keeps only the fields the output schema declares. */
  function Project(schema: Json, v: Json): Json
    decreases v, 1
  {
    if TypeOf(schema) == Some("object") && v.Obj? then
      match Properties(schema)
      case None => Obj(map[])
      case Some(p) => Obj(ProjectFields(p, v.fields))
    else if TypeOf(schema) == Some("array") && v.Arr? then
      match Get(schema, "items")
      case None => v
      case Some(item) => Arr(seq(|v.items|, i requires 0 <= i < |v.items| => Project(item, v.items[i])))
    else v
  }

  function ProjectFields(p: map<string, Json>, m: map<string, Json>): map<string, Json>
    decreases Obj(m), 0
  {
    map k | k in p.Keys * m.Keys :: Project(p[k], m[k])
  }

  /** No object at any schema level holds a field its schema does not declare. */
  ghost predicate Declared(schema: Json, v: Json)
    decreases v
  {
    if TypeOf(schema) == Some("object") && v.Obj? then
      match Properties(schema)
      case None => v.fields == map[]
      case Some(p) => forall k | k in v.fields :: k in p && Declared(p[k], v.fields[k])
    else if TypeOf(schema) == Some("array") && v.Arr? then
      match Get(schema, "items")
      case None => true
      case Some(item) => forall i | 0 <= i < |v.items| :: Declared(item, v.items[i])
    else true
  }

  /** `w` is `v` with some object fields left out, at any depth. */
  ghost predicate Prunes(w: Json, v: Json)
    decreases v
  {
    if v.Obj? && w.Obj? then forall k | k in w.fields :: k in v.fields && Prunes(w.fields[k], v.fields[k])
    else if v.Arr? && w.Arr? then
      |w.items| == |v.items| && forall i | 0 <= i < |v.items| :: Prunes(w.items[i], v.items[i])
    else w == v
  }

  lemma {:induction false} PrunesItself(v: Json)
    ensures Prunes(v, v)
  {
    match v {
      case Arr(xs) => forall i | 0 <= i < |xs| { PrunesItself(xs[i]); }
      case Obj(m) => forall k | k in m { PrunesItself(m[k]); }
      case _ =>
    }
  }

  /** Projection leaves out fields only, and what is left is declared. */
  lemma {:induction false} ProjectIsDeclared(schema: Json, v: Json)
    ensures Declared(schema, Project(schema, v)) && Prunes(Project(schema, v), v)
    decreases v
  {
    PrunesItself(v);
    match v {
      case Arr(xs) =>
        if Get(schema, "items").Some? {
          forall i | 0 <= i < |xs| { ProjectIsDeclared(Get(schema, "items").value, xs[i]); }
        }
      case Obj(m) =>
        if Properties(schema).Some? {
          var p := Properties(schema).value;
          forall k | k in p && k in m { ProjectIsDeclared(p[k], m[k]); }
        }
      case _ =>
    }
  }

  /** Projection is the largest declared part of a value: any declared value obtained from
      `v` by leaving out fields is obtained from the projection too. */
  lemma {:induction false} ProjectIsLargest(schema: Json, v: Json, w: Json)
    requires Prunes(w, v) && Declared(schema, w)
    ensures Prunes(w, Project(schema, v))
    decreases v
  {
    match v {
      case Arr(xs) =>
        if w.Arr? && TypeOf(schema) == Some("array") && Get(schema, "items").Some? {
          forall i | 0 <= i < |xs| { ProjectIsLargest(Get(schema, "items").value, xs[i], w.items[i]); }
        }
      case Obj(m) =>
        if w.Obj? && TypeOf(schema) == Some("object") && Properties(schema).Some? {
          var p := Properties(schema).value;
          forall k | k in w.fields { ProjectIsLargest(p[k], m[k], w.fields[k]); }
        }
      case _ =>
    }
  }

  /** Projection leaves exactly the declared values alone. */
  lemma {:induction false} ProjectFixpoints(schema: Json, v: Json)
    ensures Project(schema, v) == v <==> Declared(schema, v)
    decreases v
  {
    ProjectIsDeclared(schema, v);
    if Declared(schema, v) {
      match v {
        case Arr(xs) =>
          if TypeOf(schema) == Some("array") && Get(schema, "items").Some? {
            forall i | 0 <= i < |xs| { ProjectFixpoints(Get(schema, "items").value, xs[i]); }
            assert Project(schema, v).items == xs;
          }
        case Obj(m) =>
          if TypeOf(schema) == Some("object") && Properties(schema).Some? {
            var p := Properties(schema).value;
            forall k | k in m { ProjectFixpoints(p[k], m[k]); }
            assert Project(schema, v).fields == m;
          }
        case _ =>
      }
    }
  }

  lemma ProjectTwice(schema: Json, v: Json)
    ensures Project(schema, Project(schema, v)) == Project(schema, v)
  {
    ProjectIsDeclared(schema, v);
    ProjectFixpoints(schema, Project(schema, v));
  }

  lemma {:induction false} AcceptedIsDeclared(schema: Json, v: Json)
    requires AcceptsValue(v, schema)
    ensures Declared(schema, v)
    decreases v
  {
    match v {
      case Arr(xs) =>
        if TypeOf(schema) == Some("array") && Get(schema, "items").Some? {
          forall i | 0 <= i < |xs| { AcceptedIsDeclared(Get(schema, "items").value, xs[i]); }
        }
      case Obj(m) =>
        if TypeOf(schema) == Some("object") {
          var p := Properties(schema).value;
          forall k | k in m { AcceptedIsDeclared(p[k], m[k]); }
        }
      case _ =>
    }
  }

  /** Arguments that pass validation hold nothing projection would drop. */
  lemma AcceptedIsFixpoint(schema: Json, args: Json)
    requires AcceptsObject(schema, args)
    ensures Project(schema, args) == args
  {
    assert AcceptsValue(args, schema);
    AcceptedIsDeclared(schema, args);
    ProjectFixpoints(schema, args);
  }

  // ---------------------------------------------------------------- redaction

  const REDACTED := "[redacted]"

  const SENSITIVE_WORDS: seq<string> := [
    "token", "secret", "password", "passwd", "passphrase", "authorization", "bearer",
    "api_key", "apikey", "access_key", "session_key", "private_key", "privatekey",
    "signing_key", "credential", "connection_string", "cookie", "jwt", "signature",
    "keystore", "dsn"]

  const SECRET_PREFIXES: seq<string> := [
    "sk-", "sk_live_", "sk_test_", "pk_live_", "pk_test_", "hvs.", "hvb.", "ghp_", "gho_",
    "ghs_", "github_pat_", "glpat-", "xoxb-", "xoxp-", "xoxa-", "AKIA", "ASIA"]

  function AsciiLower(s: string): string {
    if s == "" then ""
    else [if 'A' <= s[0] <= 'Z' then s[0] - 'A' + 'a' else s[0]] + AsciiLower(s[1..])
  }

  predicate SensitiveKey(key: string) {
    var lower := AsciiLower(key);
    exists w | w in SENSITIVE_WORDS :: Contains(lower, w)
  }

  function Count(s: string, c: char): nat {
    if s == "" then 0 else (if s[0] == c then 1 else 0) + Count(s[1..], c)
  }

  /** The text after the first occurrence of `mark`, if there is one. */
  function After(s: string, mark: string): Option<string> {
    if mark <= s then Some(s[|mark|..])
    else if s == "" then None
    else After(s[1..], mark)
  }

  function UntilAny(s: string, stops: set<char>): string {
    if s == "" || s[0] in stops then "" else [s[0]] + UntilAny(s[1..], stops)
  }

  /** A URL whose authority carries user information before its last `@`. */
  predicate CredentialedUrl(s: string) {
    match After(s, "://")
    case None => false
    case Some(rest) =>
      var authority := UntilAny(rest, {'/', '?', '#'});
      exists i | 0 < i < |authority| :: authority[i] == '@'
  }

  predicate SensitiveValue(s: string) {
    var t := Trim(s);
    || "Bearer " <= t
    || Contains(t, "-----BEGIN")
    || (exists p | p in SECRET_PREFIXES :: p <= t)
    || ("eyJ" <= t && Count(t, '.') == 2)
    || CredentialedUrl(t)
  }

  /** What counts as a secret: by the key it is stored under, or by its own shape. */
  datatype Secrets = Secrets(key: string -> bool, value: string -> bool)

  const WELL_KNOWN := Secrets(k => SensitiveKey(k), s => SensitiveValue(s))

  /** Masks secret-shaped keys and values. */
  function Redact(p: Secrets, v: Json): Json {
    match v
    case Obj(m) => Obj(map k | k in m :: if p.key(k) then Str(REDACTED) else Redact(p, m[k]))
    case Arr(xs) => Arr(seq(|xs|, i requires 0 <= i < |xs| => Redact(p, xs[i])))
    case Str(s) => if p.value(s) then Str(REDACTED) else v
    case _ => v
  }

  /** Every field under a secret-shaped key and every secret-shaped string is masked. */
  ghost predicate Masked(p: Secrets, v: Json) {
    match v
    case Obj(m) => forall k | k in m :: Masked(p, m[k]) && (p.key(k) ==> m[k] == Str(REDACTED))
    case Arr(xs) => forall i | 0 <= i < |xs| :: Masked(p, xs[i])
    case Str(s) => !p.value(s)
    case _ => true
  }

  lemma {:induction false} NotContained(s: string, mark: string)
    requires mark != "" && mark[0] !in s
    ensures !Contains(s, mark) && After(s, mark) == None
  {
    assert forall i | 0 <= i <= |s| && OccursAt(s, mark, i) :: s[i] == mark[0];
    if s != "" { NotContained(s[1..], mark); }
  }

  lemma PrefixesStartElsewhere(c: char)
    requires c == '['
    ensures forall p | p in SECRET_PREFIXES :: p != "" && p[0] != c
  {
    forall i | 0 <= i < |SECRET_PREFIXES|
      ensures SECRET_PREFIXES[i] != "" && SECRET_PREFIXES[i][0] != c
    {
    }
  }

  lemma BracketedIsPlain(s: string)
    requires |s| > 1 && s[0] == '[' && s[|s| - 1] == ']' && '-' !in s && ':' !in s
    ensures !SensitiveValue(s)
  {
    assert Trim(s) == s;
    NotContained(s, "-----BEGIN");
    NotContained(s, "://");
    PrefixesStartElsewhere(s[0]);
  }

  /** The mask itself is not secret-shaped, so masking does not hide behind itself. */
  lemma MaskIsPlain()
    ensures !SensitiveValue(REDACTED)
  {
    BracketedIsPlain(REDACTED);
  }

  /** Redaction leaves exactly the masked values alone, and always produces one. */
  lemma {:induction false} RedactFixpoints(p: Secrets, v: Json)
    requires !p.value(REDACTED)
    ensures Masked(p, Redact(p, v))
    ensures Redact(p, v) == v <==> Masked(p, v)
  {
    match v {
      case Arr(xs) =>
        forall i | 0 <= i < |xs| { RedactFixpoints(p, xs[i]); }
        if Masked(p, v) { assert Redact(p, v).items == xs; }
      case Obj(m) =>
        forall k | k in m { RedactFixpoints(p, m[k]); }
        if Masked(p, v) { assert Redact(p, v).fields == m; }
      case _ =>
    }
  }

  lemma RedactTwice(v: Json)
    ensures Redact(WELL_KNOWN, Redact(WELL_KNOWN, v)) == Redact(WELL_KNOWN, v)
  {
    MaskIsPlain();
    RedactFixpoints(WELL_KNOWN, v);
    RedactFixpoints(WELL_KNOWN, Redact(WELL_KNOWN, v));
  }

  lemma ProjectScalar(schema: Json, v: Json)
    requires !v.Obj? && !v.Arr?
    ensures Project(schema, v) == v
  {
  }

  lemma CommuteFields(p: Secrets, props: map<string, Json>, m: map<string, Json>)
    requires forall k | k in props && k in m ::
      Project(props[k], Redact(p, m[k])) == Redact(p, Project(props[k], m[k]))
    ensures ProjectFields(props, Redact(p, Obj(m)).fields) == Redact(p, Obj(ProjectFields(props, m))).fields
  {
    var l, r := ProjectFields(props, Redact(p, Obj(m)).fields), Redact(p, Obj(ProjectFields(props, m))).fields;
    assert l.Keys == props.Keys * m.Keys == r.Keys;
    forall k | k in props && k in m
      ensures l[k] == r[k]
    {
      ProjectScalar(props[k], Str(REDACTED));
    }
  }

  /** Projecting and redacting can be done in either order. */
  lemma {:induction false} ProjectRedactCommute(p: Secrets, schema: Json, v: Json)
    ensures Project(schema, Redact(p, v)) == Redact(p, Project(schema, v))
    decreases v
  {
    match v {
      case Arr(xs) =>
        if TypeOf(schema) == Some("array") && Get(schema, "items").Some? {
          var item := Get(schema, "items").value;
          forall i | 0 <= i < |xs| { ProjectRedactCommute(p, item, xs[i]); }
          assert Project(schema, Redact(p, v)).items == Redact(p, Project(schema, v)).items;
        }
      case Obj(m) =>
        if TypeOf(schema) == Some("object") && Properties(schema).Some? {
          var props := Properties(schema).value;
          forall k | k in props && k in m
            ensures Project(props[k], Redact(p, m[k])) == Redact(p, Project(props[k], m[k]))
          {
            ProjectRedactCommute(p, props[k], m[k]);
          }
          CommuteFields(p, props, m);
        }
      case _ =>
    }
  }

  // ---------------------------------------------------------------- running a tool

  datatype Tool = Tool(inputSchema: Json, outputSchema: Json, maxBytes: nat)

  /** `permitted` and `timeLeft` are the caller's scopes and deadline; `run` is the tool. */
  ghost function Execute(nfc: string -> string, tool: Option<Tool>, args: Json, permitted: bool,
                         timeLeft: bool, run: Json -> Result<Json>): Result<Json>
  {
    if tool.None? then Err(Unknown)
    else match Canonicalize(nfc, args)
    case None => Err(InvalidArguments)
    case Some(canonical) =>
      if Utf8Len(Canonical(canonical)) > MAX_TOOL_ARGUMENT_BYTES then Err(InvalidArguments)
      else if !AcceptsObject(tool.value.inputSchema, canonical) then Err(InvalidArguments)
      else if !permitted then Err(NotPermitted)
      else if !timeLeft then Err(Timeout)
      else match run(canonical)
      case Err(e) => Err(e)
      case Ok(raw) =>
        var bytes := Utf8Len(Canonical(raw));
        if bytes > MAX_TOOL_RESULT_BYTES || bytes > tool.value.maxBytes then Err(ResultTooLarge)
        else Ok(Redact(WELL_KNOWN, Project(tool.value.outputSchema, raw)))
  }

  /** A tool runs only on canonical arguments its schema accepts, within bounds; and whatever
      it answers, what leaves the registry holds no undeclared field and no unmasked secret. */
  lemma ExecuteIsClean(nfc: string -> string, tool: Option<Tool>, args: Json, permitted: bool,
                       timeLeft: bool, run: Json -> Result<Json>)
    requires Execute(nfc, tool, args, permitted, timeLeft, run).Ok?
    ensures var v := Execute(nfc, tool, args, permitted, timeLeft, run).value;
      && Masked(WELL_KNOWN, v)
      && Declared(tool.value.outputSchema, v)
      && AllStrings(ControlFree, args)
      && AcceptsObject(tool.value.inputSchema, Canonicalize(nfc, args).value)
      && Utf8Len(Canonical(Canonicalize(nfc, args).value)) <= MAX_TOOL_ARGUMENT_BYTES
      && permitted && timeLeft
  {
    CanonicalizeRefuses(nfc, args);
    var raw := run(Canonicalize(nfc, args).value).value;
    var schema := tool.value.outputSchema;
    MaskIsPlain();
    RedactFixpoints(WELL_KNOWN, Project(schema, raw));
    ProjectRedactCommute(WELL_KNOWN, schema, raw);
    ProjectIsDeclared(schema, Redact(WELL_KNOWN, raw));
  }

  /** Arguments a tool may be run on: no control character in any text, within the size limit
      and accepted by the input schema once normalized. */
  ghost predicate Admissible(nfc: string -> string, tool: Tool, args: Json) {
    && AllStrings(ControlFree, args) && Canonicalize(nfc, args).Some?
    && Utf8Len(Canonical(Canonicalize(nfc, args).value)) <= MAX_TOOL_ARGUMENT_BYTES
    && AcceptsObject(tool.inputSchema, Canonicalize(nfc, args).value)
  }

  /** Nothing else is refused, each refusal has its own error, and what the tool answers is
      handed on with undeclared fields left out and secrets masked. */
  lemma ExecuteRefusesExactly(nfc: string -> string, tool: Tool, args: Json, permitted: bool, timeLeft: bool,
                              run: Json -> Result<Json>)
    ensures Execute(nfc, None, args, permitted, timeLeft, run) == Err(Unknown)
    ensures var r := Execute(nfc, Some(tool), args, permitted, timeLeft, run);
      if !Admissible(nfc, tool, args) then r == Err(InvalidArguments)
      else if !permitted then r == Err(NotPermitted)
      else if !timeLeft then r == Err(Timeout)
      else
        match run(Canonicalize(nfc, args).value)
        case Err(e) => r == Err(e)
        case Ok(raw) =>
          var size := Utf8Len(Canonical(raw));
          if size <= MAX_TOOL_RESULT_BYTES && size <= tool.maxBytes
          then r == Ok(Project(tool.outputSchema, Redact(WELL_KNOWN, raw)))
          else r == Err(ResultTooLarge)
  {
    CanonicalizeRefuses(nfc, args);
    if Admissible(nfc, tool, args) && run(Canonicalize(nfc, args).value).Ok? {
      ProjectRedactCommute(WELL_KNOWN, tool.outputSchema, run(Canonicalize(nfc, args).value).value);
    }
  }
}
