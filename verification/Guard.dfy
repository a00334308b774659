/** The prompt guard: overlapping windows over the normalized message. */
module Guard {
  import opened Json
  import opened Text

  const INSPECT_CHARS := 4000
  const INSPECT_STEP := 2000

  datatype GuardHit = Disclosure | Override

  datatype Policy = Policy(disclosure: seq<string>, override: seq<string>)

  // ---------------------------------------------------------------- normalized text

  /** The words of a text: its maximal runs of printable characters. */
  function Words(s: string): seq<string>
    decreases |s|
  {
    var t := TrimStart(s);
    TrimStartIsShort(s);
    if t == "" then [] else
      var n := WordLength(t);
      if n == 0 then [] else [t[..n]] + Words(t[n..])
  }

  function WordLength(s: string): (n: nat)
    ensures n <= |s| && (s != "" && !IsSpace(s[0]) ==> n > 0)
    ensures forall i | 0 <= i < n :: !IsSpace(s[i])
  {
    if s == "" || IsSpace(s[0]) then 0 else
      var n := WordLength(s[1..]);
      assert forall i | 0 < i <= n :: s[i] == s[1..][i - 1];
      1 + n
  }

  lemma {:induction false} TrimStartIsShort(s: string)
    ensures |TrimStart(s)| <= |s|
    ensures TrimStart(s) != "" ==> !IsSpace(TrimStart(s)[0])
  {
    if s != "" && IsSpace(s[0]) { TrimStartIsShort(s[1..]); }
  }

  function Join(words: seq<string>): string {
    if words == [] then ""
    else if |words| == 1 then words[0]
    else words[0] + " " + Join(words[1..])
  }

  /** The last stage of normalization: white space collapsed to single spaces. */
  function Collapse(s: string): string {
    Join(Words(s))
  }

  /** No two neighbouring spaces. */
  ghost predicate SingleSpaced(s: string) {
    forall i | 0 < i < |s| :: s[i - 1] != ' ' || s[i] != ' '
  }

  lemma {:induction false} CollapseIsSingleSpaced(s: string)
    ensures SingleSpaced(Collapse(s)) && (Collapse(s) != "" ==> Collapse(s)[0] != ' ')
    decreases |s|
  {
    var t := TrimStart(s);
    TrimStartIsShort(s);
    if t != "" {
      var n := WordLength(t);
      CollapseIsSingleSpaced(t[n..]);
      var rest := Collapse(t[n..]);
      assert Words(s) == [t[..n]] + Words(t[n..]) && Words(s)[1..] == Words(t[n..]);
      if Words(t[n..]) != [] {
        assert Collapse(s) == t[..n] + " " + rest;
      }
    }
  }

  /** Words with white space around them: gap `i` comes before word `i`, and one more at the end. */
  function Lay(words: seq<string>, gaps: seq<string>): string
    requires |gaps| == |words| + 1
  {
    if words == [] then gaps[0] else gaps[0] + (words[0] + Lay(words[1..], gaps[1..]))
  }

  ghost predicate Blank(s: string) {
    forall c | c in s :: IsSpace(c)
  }

  ghost predicate Printable(s: string) {
    s != "" && forall c | c in s :: !IsSpace(c)
  }

  /** Gaps that keep the words apart. */
  ghost predicate Parts(words: seq<string>, gaps: seq<string>) {
    && |gaps| == |words| + 1 && (forall w | w in words :: Printable(w))
    && forall i | 0 <= i < |gaps| :: Blank(gaps[i]) && (0 < i < |words| ==> gaps[i] != "")
  }

  lemma {:induction false} BlankIsTrimmed(gap: string, rest: string)
    requires Blank(gap)
    ensures TrimStart(gap + rest) == TrimStart(rest)
  {
    if gap == "" {
      assert gap + rest == rest;
    } else {
      assert (gap + rest)[1..] == gap[1..] + rest;
      BlankIsTrimmed(gap[1..], rest);
    }
  }

  lemma {:induction false} WordEnds(word: string, rest: string)
    requires (forall c | c in word :: !IsSpace(c)) && (rest != "" ==> IsSpace(rest[0]))
    ensures WordLength(word + rest) == |word|
  {
    if word == "" {
      assert word + rest == rest;
    } else {
      assert (word + rest)[1..] == word[1..] + rest;
      WordEnds(word[1..], rest);
    }
  }

  /** However words are spaced, they are read back one by one. */
  lemma {:induction false} LaidWordsComeBack(words: seq<string>, gaps: seq<string>)
    requires Parts(words, gaps)
    ensures Words(Lay(words, gaps)) == words
  {
    if words == [] {
      BlankIsTrimmed(gaps[0], "");
      assert gaps[0] + "" == gaps[0];
    } else {
      var w, rest := words[0], Lay(words[1..], gaps[1..]);
      assert Printable(w) && Blank(gaps[0]) && Blank(gaps[1]);
      assert Parts(words[1..], gaps[1..]) by {
        forall i | 0 <= i < |gaps[1..]|
          ensures Blank(gaps[1..][i]) && (0 < i < |words[1..]| ==> gaps[1..][i] != "")
        {
          assert gaps[1..][i] == gaps[i + 1];
        }
      }
      LaidWordsComeBack(words[1..], gaps[1..]);
      BlankIsTrimmed(gaps[0], w + rest);
      assert (w + rest)[0] == w[0] && w[0] in w;
      assert rest != "" ==> IsSpace(rest[0]) by {
        if |words| > 1 { assert gaps[1][0] in gaps[1] && rest[0] == gaps[1][0]; }
        else if rest != "" { assert rest == gaps[1] && rest[0] in gaps[1]; }
      }
      WordEnds(w, rest);
      assert (w + rest)[..|w|] == w && (w + rest)[|w|..] == rest;
    }
  }

  lemma LeadIsBlank(s: string) returns (lead: string)
    ensures s == lead + TrimStart(s) && Blank(lead)
  {
    TrimStartDrops(s);
    var k: nat :| k <= |s| && TrimStart(s) == s[k..];
    DroppedIsBlank(s, k);
    lead := s[..k];
  }

  /** A text that is not blank starts with a word, after some white space. */
  lemma WordsStart(s: string) returns (lead: string, word: string, rest: string)
    requires TrimStart(s) != ""
    ensures s == lead + (word + rest) && Blank(lead) && Printable(word) && (rest != "" ==> IsSpace(rest[0]))
    ensures Words(s) == [word] + Words(rest) && |rest| < |s|
  {
    lead := LeadIsBlank(s);
    var t := TrimStart(s);
    TrimStartIsShort(s);
    WordIsWhole(t);
    word, rest := t[..WordLength(t)], t[WordLength(t)..];
    assert t == word + rest;
  }

  /** Every text is its words, spaced in some way. */
  lemma {:induction false} TextIsItsWords(s: string) returns (gaps: seq<string>)
    ensures Parts(Words(s), gaps) && Lay(Words(s), gaps) == s
    decreases |s|
  {
    if TrimStart(s) == "" {
      var lead := LeadIsBlank(s);
      assert s == lead;
      gaps := [s];
    } else {
      var lead, word, rest := WordsStart(s);
      var more := TextIsItsWords(rest);
      if Words(rest) != [] { GapIsThere(Words(rest), more, rest); }
      PartsGrow(lead, word, Words(rest), more);
      gaps := [lead] + more;
      LayStarts([word] + Words(rest), gaps, more);
    }
  }

  lemma PartsGrow(gap: string, word: string, words: seq<string>, gaps: seq<string>)
    requires Blank(gap) && Printable(word) && Parts(words, gaps) && (words != [] ==> gaps[0] != "")
    ensures Parts([word] + words, [gap] + gaps)
  {
    var all := [gap] + gaps;
    forall i | 0 <= i < |all| ensures Blank(all[i]) && (0 < i <= |words| ==> all[i] != "") {
      if i > 0 { assert all[i] == gaps[i - 1]; }
    }
  }

  lemma {:induction false} DroppedIsBlank(s: string, k: nat)
    requires k <= |s| && TrimStart(s) == s[k..]
    ensures Blank(s[..k])
  {
    if k > 0 {
      assert IsSpace(s[0]) by { assert |s[k..]| != |s|; }
      assert s[1..][k - 1..] == s[k..];
      DroppedIsBlank(s[1..], k - 1);
      assert s[..k] == [s[0]] + s[1..][..k - 1];
    }
  }

  /** A word ends at white space, or with the text. */
  lemma {:induction false} WordIsWhole(s: string)
    ensures var n := WordLength(s); n < |s| ==> IsSpace(s[n])
  {
    if s != "" && !IsSpace(s[0]) { WordIsWhole(s[1..]); }
  }

  /** Words that follow white space are laid with a gap before them. */
  lemma GapIsThere(words: seq<string>, gaps: seq<string>, s: string)
    requires words != [] && Parts(words, gaps) && Lay(words, gaps) == s && (s != "" ==> IsSpace(s[0]))
    ensures gaps[0] != ""
  {
    assert Printable(words[0]) && words[0][0] in words[0];
    assert s[|gaps[0]|] == words[0][0];
  }

  /** Collapsing keeps the words and nothing else of a text: two texts collapse alike if and
      only if they are the same words, however spaced. */
  lemma CollapseKeepsWords(s: string, t: string)
    ensures Words(Collapse(s)) == Words(s)
    ensures Collapse(s) == Collapse(t) <==> Words(s) == Words(t)
  {
    JoinedComeBack(s);
    JoinedComeBack(t);
  }

  lemma JoinedComeBack(s: string)
    ensures Words(Collapse(s)) == Words(s)
  {
    var gaps := TextIsItsWords(s);
    JoinIsLaid(Words(s), "");
    assert "" + Join(Words(s)) == Collapse(s);
    LaidWordsComeBack(Words(s), SingleGaps(|Words(s)|, ""));
  }

  /** One space between two words and none at the ends, after a given text. */
  function SingleGaps(n: nat, lead: string): (gaps: seq<string>)
    ensures |gaps| == n + 1 && gaps[0] == lead
    ensures forall i | 0 < i < |gaps| :: Blank(gaps[i]) && (i < n ==> gaps[i] != "")
  {
    [lead] + if n == 0 then [] else SingleGaps(n - 1, if n == 1 then "" else " ")
  }

  lemma JoinStarts(words: seq<string>, sep: string)
    requires words != [] && sep == if |words| == 1 then "" else " "
    ensures Join(words) == words[0] + (sep + Join(words[1..]))
  {
    Associates(words[0], sep, Join(words[1..]));
  }

  lemma LayStarts(words: seq<string>, gaps: seq<string>, rest: seq<string>)
    requires words != [] && |gaps| == |words| + 1 && gaps[1..] == rest
    ensures Lay(words, gaps) == gaps[0] + (words[0] + Lay(words[1..], rest))
  {
  }

  lemma {:induction false} JoinIsLaid(words: seq<string>, lead: string)
    ensures Lay(words, SingleGaps(|words|, lead)) == lead + Join(words)
  {
    if words == [] {
      assert lead + "" == lead;
    } else {
      var sep := if |words| == 1 then "" else " ";
      JoinStarts(words, sep);
      JoinIsLaid(words[1..], sep);
      LayStarts(words, SingleGaps(|words|, lead), SingleGaps(|words| - 1, sep));
    }
  }

  // ---------------------------------------------------------------- matching

  /** The text without its spaces. */
  function Compact(s: string): string {
    if s == "" then "" else (if s[0] == ' ' then "" else [s[0]]) + Compact(s[1..])
  }

  /** Leaving spaces out leaves nothing else out. */
  lemma {:induction false} CompactForgetsSpaces(s: string)
    ensures ' ' !in Compact(s) && (' ' !in s ==> Compact(s) == s)
    ensures forall c | c != ' ' :: multiset(Compact(s))[c] == multiset(s)[c]
  {
    if s != "" {
      CompactForgetsSpaces(s[1..]);
      assert s == [s[0]] + s[1..];
    }
  }

  /** A phrase occurs, directly or once spaces are left out on both sides. */
  predicate Matches(text: string, phrase: string) {
    Contains(text, phrase) || Contains(Compact(text), Compact(phrase))
  }

  predicate MatchesAny(text: string, phrases: seq<string>) {
    exists p | p in phrases :: Matches(text, p)
  }

  function MatchWindow(policy: Policy, window: string): Option<GuardHit> {
    if MatchesAny(window, policy.disclosure) then Some(Disclosure)
    else if MatchesAny(window, policy.override) then Some(Override)
    else None
  }

  /** The hits of the windows from `start` on. */
  function Windows(policy: Policy, chars: string, start: nat): Option<GuardHit>
    requires start < |chars|
    decreases |chars| - start
  {
    var end := if start + INSPECT_CHARS < |chars| then start + INSPECT_CHARS else |chars|;
    var hit := MatchWindow(policy, chars[start..end]);
    if hit.Some? || end == |chars| then hit else Windows(policy, chars, start + INSPECT_STEP)
  }

  function Classified(policy: Policy, chars: string): Option<GuardHit> {
    if |chars| <= INSPECT_CHARS then MatchWindow(policy, chars) else Windows(policy, chars, 0)
  }

  /** `fold` stands for the earlier normalization stages: compatibility form, removal of
      invisible characters, lower case and leet folding. */
  method Classify(policy: Policy, fold: string -> string, content: string) returns (hit: Option<GuardHit>)
    ensures hit == Classified(policy, Collapse(fold(content)))
  {
    var chars := Collapse(fold(content));
    if |chars| <= INSPECT_CHARS { return MatchWindow(policy, chars); }
    var start := 0;
    while start < |chars|
      invariant start <= |chars| - INSPECT_CHARS + INSPECT_STEP
      invariant Windows(policy, chars, start) == Classified(policy, chars)
      decreases |chars| - start
    {
      var end := if start + INSPECT_CHARS < |chars| then start + INSPECT_CHARS else |chars|;
      hit := MatchWindow(policy, chars[start..end]);
      if hit.Some? { return; }
      if end == |chars| { break; }
      start := start + INSPECT_STEP;
    }
    return None;
  }

  // ---------------------------------------------------------------- windows against the whole

  lemma {:induction false} CompactAppends(a: string, b: string)
    ensures Compact(a + b) == Compact(a) + Compact(b)
  {
    if a == "" {
      assert a + b == b;
    } else {
      assert (a + b)[1..] == a[1..] + b;
      CompactAppends(a[1..], b);
      Associates(if a[0] == ' ' then "" else [a[0]], Compact(a[1..]), Compact(b));
    }
  }

  lemma ContainedInWhole(a: string, part: string, b: string, phrase: string)
    requires Contains(part, phrase)
    ensures Contains(a + part + b, phrase)
  {
    var i :| 0 <= i <= |part| && OccursAt(part, phrase, i);
    var whole := a + part + b;
    assert whole[|a| + i..] == part[i..] + b;
    assert OccursAt(whole, phrase, |a| + i);
  }

  /** A match inside a window is a match in the whole text. */
  lemma WindowWithinWhole(text: string, start: nat, end: nat, phrase: string)
    requires start <= end <= |text| && Matches(text[start..end], phrase)
    ensures Matches(text, phrase)
  {
    var a, part, b := text[..start], text[start..end], text[end..];
    assert text == a + part + b;
    if Contains(part, phrase) {
      ContainedInWhole(a, part, b, phrase);
    } else {
      CompactAppends(a + part, b);
      CompactAppends(a, part);
      ContainedInWhole(Compact(a), Compact(part), Compact(b), Compact(phrase));
    }
  }

  /** A cut of the compact text is a cut of the text. */
  lemma {:induction false} CompactCut(text: string, x: string, y: string) returns (i: nat)
    requires Compact(text) == x + y
    ensures i <= |text| && Compact(text[..i]) == x && Compact(text[i..]) == y
  {
    if x == "" {
      i := 0;
      assert text[0..] == text && x + y == y;
    } else {
      var rest := text[1..];
      var c := if text[0] == ' ' then "" else [text[0]];
      assert c == "" || x[0] == text[0] by { assert (x + y)[0] == x[0]; }
      var x' := x[|c|..];
      assert x == c + x';
      Associates(c, x', y);
      Cancel(c, c, Compact(rest), x' + y);
      var n := CompactCut(rest, x', y);
      i := n + 1;
      assert text[..i][1..] == rest[..n] && text[i..] == rest[n..];
    }
  }

  /** In single-spaced text at most every second character is a space. */
  lemma {:induction false} SpacesAreFew(s: string)
    requires SingleSpaced(s)
    ensures |s| <= 2 * |Compact(s)| + 1
    ensures s != "" && s[0] != ' ' ==> |s| <= 2 * |Compact(s)|
  {
    if s != "" {
      assert forall i | 0 < i < |s[1..]| :: s[1..][i] == s[i + 1] && s[1..][i - 1] == s[i];
      SpacesAreFew(s[1..]);
      if s[0] == ' ' && |s| > 1 { assert s[1] != ' '; }
    }
  }

  /** Phrases short enough for the overlap of two windows. */
  predicate Short(phrase: string) {
    |phrase| <= 1000
  }

  lemma {:induction false} CompactIsShort(s: string)
    ensures |Compact(s)| <= |s|
  {
    if s != "" { CompactIsShort(s[1..]); }
  }

  /** A stretch of text in which the phrase is matched on its own. */
  ghost predicate MatchedIn(text: string, from: nat, to: nat, phrase: string) {
    from <= to <= |text| && to - from <= INSPECT_STEP && Matches(text[from..to], phrase)
  }

  lemma DirectStretch(text: string, phrase: string)
    requires Short(phrase) && Contains(text, phrase)
    ensures exists from: nat, to: nat :: MatchedIn(text, from, to, phrase)
  {
    var i: nat :| i <= |text| && OccursAt(text, phrase, i);
    var part := text[i..i + |phrase|];
    assert part == text[i..][..|phrase|] == phrase;
    assert part[0..] == part && OccursAt(part, phrase, 0);
    assert MatchedIn(text, i, i + |phrase|, phrase);
  }

  /** Where an occurrence in the compact text lies in the text itself. */
  lemma CompactPlace(text: string, q: string, p: nat) returns (i: nat, to: nat)
    requires OccursAt(Compact(text), q, p)
    ensures i <= to <= |text| && Compact(text[i..to]) == q
  {
    var all := Compact(text);
    i := CompactCut(text, all[..p], all[p..]);
    var n := CompactCut(text[i..], q, all[p..][|q|..]);
    to := i + n;
    assert text[i..][..n] == text[i..to];
  }

  lemma CompactStretch(text: string, phrase: string)
    requires SingleSpaced(text) && Short(phrase) && Contains(Compact(text), Compact(phrase))
    ensures exists from: nat, to: nat :: MatchedIn(text, from, to, phrase)
  {
    var q := Compact(phrase);
    CompactIsShort(phrase);
    var p: nat :| p <= |Compact(text)| && OccursAt(Compact(text), q, p);
    var i, to := CompactPlace(text, q, p);
    TrimToStretch(text, i, to, q);
    var from: nat :| i <= from <= to && Compact(text[from..to]) == q && to - from <= 2 * |q|;
    assert Compact(text[from..to])[0..] == q && OccursAt(q, q, 0);
    assert MatchedIn(text, from, to, phrase);
  }

  lemma SomeStretch(text: string, phrase: string)
    requires SingleSpaced(text) && Short(phrase) && Matches(text, phrase)
    ensures exists from: nat, to: nat :: MatchedIn(text, from, to, phrase)
  {
    if Contains(text, phrase) { DirectStretch(text, phrase); } else { CompactStretch(text, phrase); }
  }

  /** Leaving out a leading space makes a stretch at most twice as long as what it says. */
  lemma TrimToStretch(text: string, i: nat, to: nat, q: string)
    requires SingleSpaced(text) && i <= to <= |text| && Compact(text[i..to]) == q
    ensures exists from: nat :: i <= from <= to && Compact(text[from..to]) == q && to - from <= 2 * |q|
  {
    var part := text[i..to];
    assert SingleSpaced(part) by {
      forall k | 0 < k < |part| ensures part[k - 1] != ' ' || part[k] != ' ' {
        assert part[k - 1] == text[i + k - 1] && part[k] == text[i + k];
      }
    }
    SpacesAreFew(part);
    if part != "" && part[0] == ' ' {
      assert part[1..] == text[i + 1..to];
      assert Compact(part) == "" + Compact(part[1..]);
      assert Compact(text[i + 1..to]) == q && to - (i + 1) <= 2 * |q|;
    } else {
      assert to - i <= 2 * |q|;
    }
  }

  /** Every stretch no longer than the step lies inside one of the windows. */
  lemma {:induction false} SomeWindowCovers(policy: Policy, text: string, start: nat, from: nat, to: nat,
                                            phrase: string)
    requires start < |text| && start <= from && MatchedIn(text, from, to, phrase)
    requires phrase in policy.disclosure || phrase in policy.override
    ensures Windows(policy, text, start).Some?
    decreases |text| - start
  {
    var end := if start + INSPECT_CHARS < |text| then start + INSPECT_CHARS else |text|;
    if to <= end {
      assert text[start..end][from - start..to - start] == text[from..to];
      WindowWithinWhole(text[start..end], from - start, to - start, phrase);
      assert MatchWindow(policy, text[start..end]).Some?;
    } else {
      SomeWindowCovers(policy, text, start + INSPECT_STEP, from, to, phrase);
    }
  }

  /** A hit names a list with a phrase that does occur. Which list is named first may
      depend on the windows. */
  lemma {:induction false} WindowsAreSound(policy: Policy, text: string, start: nat)
    requires start < |text|
    ensures Windows(policy, text, start) == Some(Disclosure) ==> MatchesAny(text, policy.disclosure)
    ensures Windows(policy, text, start) == Some(Override) ==> MatchesAny(text, policy.override)
    decreases |text| - start
  {
    var end := if start + INSPECT_CHARS < |text| then start + INSPECT_CHARS else |text|;
    var hit := MatchWindow(policy, text[start..end]);
    if hit.Some? {
      var p :| p in (if hit.value.Disclosure? then policy.disclosure else policy.override)
               && Matches(text[start..end], p);
      WindowWithinWhole(text, start, end, p);
    } else if end < |text| {
      WindowsAreSound(policy, text, start + INSPECT_STEP);
    }
  }

  /** One of the phrases is there, with its own spaces or without any. */
  ghost predicate Says(text: string, phrases: seq<string>) {
    exists p | p in phrases :: Contains(text, p) || Contains(Compact(text), Compact(p))
  }

  lemma MatchingIsSaying(text: string, phrases: seq<string>)
    ensures MatchesAny(text, phrases) <==> Says(text, phrases)
  {
    if MatchesAny(text, phrases) {
      var p :| p in phrases && Matches(text, p);
    }
    if Says(text, phrases) {
      var p :| p in phrases && (Contains(text, p) || Contains(Compact(text), Compact(p)));
      assert Matches(text, p);
    }
  }

  /** The guard refuses a message exactly when some phrase occurs in the whole normalized
      text, directly or with the spaces left out, however long the text is. */
  lemma GuardSeesTheWholeText(policy: Policy, s: string)
    requires forall p | p in policy.disclosure + policy.override :: Short(p)
    ensures Classified(policy, Collapse(s)).Some? <==> Says(Collapse(s), policy.disclosure + policy.override)
    ensures Classified(policy, Collapse(s)) == Some(Disclosure) ==> Says(Collapse(s), policy.disclosure)
    ensures Classified(policy, Collapse(s)) == Some(Override) ==> Says(Collapse(s), policy.override)
    ensures |Collapse(s)| <= INSPECT_CHARS && Says(Collapse(s), policy.disclosure)
            ==> Classified(policy, Collapse(s)) == Some(Disclosure)
  {
    var text := Collapse(s);
    var both := policy.disclosure + policy.override;
    CollapseIsSingleSpaced(s);
    MatchingIsSaying(text, policy.disclosure);
    MatchingIsSaying(text, policy.override);
    MatchingIsSaying(text, both);
    if |text| > INSPECT_CHARS {
      WindowsAreSound(policy, text, 0);
      var hit := Windows(policy, text, 0);
      assert Classified(policy, text) == hit;
      if hit.Some? {
        match hit.value {
          case Disclosure =>
          case Override =>
        }
      }
      forall p | p in both && Matches(text, p) ensures hit.Some? {
        SomeStretch(text, p);
        var from: nat, to: nat :| MatchedIn(text, from, to, p);
        SomeWindowCovers(policy, text, 0, from, to, p);
      }
    }
  }
}
