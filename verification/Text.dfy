/** Plain string operations the text components share. */
module Text {

  /** White space, as `char::is_whitespace` sees it. */
  predicate IsSpace(c: char) {
    var n := c as int;
    9 <= n <= 13 || n == 0x20 || n == 0x85 || n == 0xA0 || n == 0x1680 || 0x2000 <= n <= 0x200A
    || n == 0x2028 || n == 0x2029 || n == 0x202F || n == 0x205F || n == 0x3000
  }

  function TrimStart(s: string): string {
    if s != "" && IsSpace(s[0]) then TrimStart(s[1..]) else s
  }

  function TrimEnd(s: string): string {
    if s != "" && IsSpace(s[|s| - 1]) then TrimEnd(s[..|s| - 1]) else s
  }

  function Trim(s: string): string {
    TrimEnd(TrimStart(s))
  }

  /** Trimming the end of a text stops at its last printable character. */
  lemma {:induction false} TrimEndStops(p: string, q: string)
    requires p != "" && !IsSpace(p[|p| - 1])
    ensures TrimEnd(p + q) == p + TrimEnd(q)
  {
    if q == "" {
      assert p + q == p;
    } else {
      assert (p + q)[|p + q| - 1] == q[|q| - 1];
      assert (p + q)[..|p + q| - 1] == p + q[..|q| - 1];
      if IsSpace(q[|q| - 1]) { TrimEndStops(p, q[..|q| - 1]); }
    }
  }

  /** Trimming the start of a text stops at its first printable character. */
  lemma {:induction false} TrimStartStops(p: string, q: string)
    requires q != "" && !IsSpace(q[0])
    ensures TrimStart(p + q) == TrimStart(p) + q
  {
    if p == "" {
      assert p + q == q;
    } else {
      assert (p + q)[1..] == p[1..] + q;
      TrimStartStops(p[1..], q);
    }
  }

  lemma {:induction false} TrimStartDrops(s: string)
    ensures exists n: nat :: n <= |s| && TrimStart(s) == s[n..]
  {
    if s != "" && IsSpace(s[0]) {
      TrimStartDrops(s[1..]);
      var n: nat :| n <= |s| - 1 && TrimStart(s[1..]) == s[1..][n..];
      assert s[1..][n..] == s[n + 1..];
    } else {
      assert s == s[0..];
    }
  }

  /** Trimming leaves nothing exactly of white space. */
  lemma {:induction false} TrimIsBlank(s: string)
    ensures Trim(s) == "" <==> forall c | c in s :: IsSpace(c)
  {
    if s != "" {
      assert s == [s[0]] + s[1..];
      if IsSpace(s[0]) { TrimIsBlank(s[1..]); } else { TrimEndStops([s[0]], s[1..]); }
    }
  }

  /** `needle` starts at position `i` of `s`. */
  predicate OccursAt(s: string, needle: string, i: nat) {
    i <= |s| && needle <= s[i..]
  }

  predicate Contains(s: string, needle: string) {
    exists i | 0 <= i <= |s| :: OccursAt(s, needle, i)
  }

  /** Length in UTF-8 bytes. */
  function Utf8Len(s: string): nat {
    if s == "" then 0 else
      var n := s[0] as int;
      (if n < 0x80 then 1 else if n < 0x800 then 2 else if n < 0x1_0000 then 3 else 4) + Utf8Len(s[1..])
  }

  /** The characters from `code` on. */
  function From(s: string, code: nat): nat {
    if s == "" then 0 else (if s[0] as int >= code then 1 else 0) + From(s[1..], code)
  }

  /** One byte a character, and one more for each of the code points 80, 800 and 10000 (in
      hexadecimal) it reaches. */
  lemma {:induction false} Utf8LenCounts(s: string)
    ensures Utf8Len(s) == |s| + From(s, 0x80) + From(s, 0x800) + From(s, 0x1_0000)
  {
    if s != "" { Utf8LenCounts(s[1..]); }
  }

  lemma Associates<T>(a: seq<T>, b: seq<T>, c: seq<T>)
    ensures a + b + c == a + (b + c)
  {
  }

  function Flatten(parts: seq<string>): string {
    if parts == [] then "" else parts[0] + Flatten(parts[1..])
  }

  lemma {:induction false} FlattenAppends(a: seq<string>, b: seq<string>)
    ensures Flatten(a + b) == Flatten(a) + Flatten(b)
  {
    if a == [] {
      assert a + b == b;
    } else {
      assert (a + b)[1..] == a[1..] + b;
      FlattenAppends(a[1..], b);
    }
  }
}
