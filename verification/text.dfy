/** The string operations of the Rust standard library that the config editor relies on:
    `lines`, `join`, `trim` and prefix tests, with the laws that connect them. */
module Text {

  /** The Unicode White_Space characters, which `trim` removes. */
  predicate IsWhitespace(c: char) {
    || '\U{9}' <= c <= '\U{D}'
    || c == ' ' || c == '\U{85}' || c == '\U{A0}' || c == '\U{1680}'
    || '\U{2000}' <= c <= '\U{200A}'
    || c == '\U{2028}' || c == '\U{2029}' || c == '\U{202F}' || c == '\U{205F}' || c == '\U{3000}'
  }

  function TrimStart(s: string): string {
    if s != "" && IsWhitespace(s[0]) then TrimStart(s[1..]) else s
  }

  function TrimEnd(s: string): string {
    if s != "" && IsWhitespace(s[|s| - 1]) then TrimEnd(s[..|s| - 1]) else s
  }

  function Trim(s: string): string {
    TrimEnd(TrimStart(s))
  }

  predicate StartsWith(s: string, prefix: string) {
    prefix <= s
  }

  /** The index of the first newline, or the length when there is none. */
  function LineEnd(s: string): (i: nat)
    ensures i <= |s|
    ensures forall k :: 0 <= k < i ==> s[k] != '\n'
    ensures i < |s| ==> s[i] == '\n'
  {
    if s == "" || s[0] == '\n' then 0 else 1 + LineEnd(s[1..])
  }

  /** A line that ended in "\r\n" loses its carriage return together with the newline. */
  function StripCr(l: string): string {
    if l != "" && l[|l| - 1] == '\r' then l[..|l| - 1] else l
  }

  /** `str::lines`: an unterminated last line counts, an empty one does not. */
  function Lines(s: string): seq<string>
    decreases |s|
  {
    if s == "" then []
    else
      var i := LineEnd(s);
      if i == |s| then [s] else [StripCr(s[..i])] + Lines(s[i + 1..])
  }

  /** `lines.join("\n")`. */
  function Join(ls: seq<string>): string {
    if |ls| == 0 then ""
    else if |ls| == 1 then ls[0]
    else ls[0] + "\n" + Join(ls[1..])
  }

  /** Every line followed by a newline. */
  function Unlines(ls: seq<string>): string {
    if ls == [] then "" else ls[0] + "\n" + Unlines(ls[1..])
  }

  function StripAll(ls: seq<string>): (r: seq<string>)
    ensures |r| == |ls| && forall i :: 0 <= i < |ls| ==> r[i] == StripCr(ls[i])
  {
    if ls == [] then [] else [StripCr(ls[0])] + StripAll(ls[1..])
  }

  /** True when the character occurs nowhere in the string. */
  predicate Lacks(s: string, c: char) {
    forall i :: 0 <= i < |s| ==> s[i] != c
  }

  predicate NoNewline(l: string) {
    Lacks(l, '\n')
  }

  /** A line that survives being written with a newline and read back. */
  predicate Clean(l: string) {
    NoNewline(l) && StripCr(l) == l
  }

  predicate AllNoNewline(ls: seq<string>) {
    forall i :: 0 <= i < |ls| ==> NoNewline(ls[i])
  }

  predicate AllClean(ls: seq<string>) {
    forall i :: 0 <= i < |ls| ==> Clean(ls[i])
  }

  // ---- sequences ----

  /** What an append looks like to a function that takes the first element. */
  lemma AppendHead<T>(a: seq<T>, b: seq<T>)
    requires a != []
    ensures (a + b)[0] == a[0] && (a + b)[1..] == a[1..] + b
    ensures a == [a[0]] + a[1..] && a + b == [a[0]] + (a[1..] + b)
  {
  }

  lemma Assoc<T>(a: seq<T>, b: seq<T>, c: seq<T>)
    ensures (a + b) + c == a + (b + c)
  {
  }

  // ---- lines and join ----

  lemma {:induction false} UnlinesAppend(a: seq<string>, b: seq<string>)
    ensures Unlines(a + b) == Unlines(a) + Unlines(b)
  {
    if a == [] {
      assert a + b == b;
    } else {
      assert (a + b)[1..] == a[1..] + b;
      UnlinesAppend(a[1..], b);
    }
  }

  lemma {:induction false} JoinUnlines(ls: seq<string>)
    requires ls != []
    ensures Join(ls) + "\n" == Unlines(ls)
    ensures Join(ls) == Unlines(ls[..|ls| - 1]) + ls[|ls| - 1]
  {
    if |ls| == 1 {
      assert ls[1..] == [];
    } else {
      JoinUnlines(ls[1..]);
      assert ls[..|ls| - 1][1..] == ls[1..][..|ls| - 2];
    }
  }

  /** A text is its first line, a newline and the lines of the rest. */
  lemma LinesCons(l: string, rest: string)
    requires NoNewline(l)
    ensures Lines(l + "\n" + rest) == [StripCr(l)] + Lines(rest)
  {
    var s := l + "\n" + rest;
    var i := LineEnd(s);
    assert s[|l|] == '\n';
    assert forall k :: 0 <= k < |l| ==> s[k] == l[k];
    assert i == |l|;
    assert s[..i] == l && s[i + 1..] == rest;
  }

  lemma LinesLast(l: string)
    requires NoNewline(l) && l != ""
    ensures Lines(l) == [l]
  {
  }

  /** Reading back newline-terminated lines, followed by anything. */
  lemma {:induction false} LinesUnlines(ls: seq<string>, rest: string)
    requires AllNoNewline(ls)
    ensures Lines(Unlines(ls) + rest) == StripAll(ls) + Lines(rest)
  {
    if ls == [] {
      assert Unlines(ls) + rest == rest;
    } else {
      assert forall i :: 0 <= i < |ls[1..]| ==> ls[1..][i] == ls[i + 1];
      var tail := Unlines(ls[1..]) + rest;
      assert Unlines(ls) + rest == ls[0] + "\n" + tail;
      LinesCons(ls[0], tail);
      LinesUnlines(ls[1..], rest);
      assert StripAll(ls) + Lines(rest) == [StripCr(ls[0])] + (StripAll(ls[1..]) + Lines(rest));
    }
  }

  lemma StripAllClean(ls: seq<string>)
    requires AllClean(ls)
    ensures StripAll(ls) == ls
  {}

  /** Clean lines with a non-empty last line are recovered from their join. */
  lemma LinesJoin(ls: seq<string>)
    requires AllClean(ls) && ls != [] && ls[|ls| - 1] != ""
    ensures Lines(Join(ls)) == ls
  {
    hide StripCr, Lines, Unlines, Join, Lacks;
    var n := |ls| - 1;
    var front, last := ls[..n], ls[n];
    assert AllNoNewline(front) && AllClean(front) && Clean(last);
    JoinUnlines(ls);
    LinesUnlines(front, last);
    StripAllClean(front);
    LinesLast(last);
    assert front + [last] == ls;
  }

  /** Joining with an extra empty last line terminates the text; reading drops that line again. */
  lemma LinesJoinBlank(ls: seq<string>)
    requires AllClean(ls)
    ensures Join(ls + [""]) == Unlines(ls)
    ensures Lines(Join(ls + [""])) == ls
  {
    JoinUnlines(ls + [""]);
    assert (ls + [""])[..|ls|] == ls;
    assert Unlines(ls) + "" == Unlines(ls);
    LinesUnlines(ls, "");
    StripAllClean(ls);
  }

  lemma {:induction false} LinesNoNewline(s: string)
    ensures AllNoNewline(Lines(s))
    decreases |s|
  {
    if s != "" {
      var i := LineEnd(s);
      if i < |s| {
        LinesNoNewline(s[i + 1..]);
      }
    }
  }

  // ---- trim ----

  lemma {:induction false} TrimEndKeeps(p: string, c: char, rest: string)
    requires !IsWhitespace(c)
    ensures TrimEnd(p + [c] + rest) == p + [c] + TrimEnd(rest)
    decreases |rest|
  {
    var s := p + [c] + rest;
    if rest == "" {
      assert s[|s| - 1] == c;
      assert s == p + [c];
    } else {
      var last := |rest| - 1;
      assert s[|s| - 1] == rest[last];
      if IsWhitespace(rest[last]) {
        assert s[..|s| - 1] == p + [c] + rest[..last];
        TrimEndKeeps(p, c, rest[..last]);
      }
    }
  }

  lemma TrimEndFirst(t: string)
    requires t != "" && !IsWhitespace(t[0])
    ensures TrimEnd(t) != "" && TrimEnd(t)[0] == t[0]
  {
    TrimEndKeeps("", t[0], t[1..]);
    assert "" + [t[0]] + t[1..] == t;
  }

  /** Four blanks of indent disappear; what follows starts at its first character. */
  lemma TrimIndent(t: string)
    requires t != "" && !IsWhitespace(t[0])
    ensures Trim("    " + t) == TrimEnd(t) == Trim(t)
    ensures Trim(t) != "" && Trim(t)[0] == t[0]
  {
    assert ("    " + t)[1..] == "   " + t;
    assert ("   " + t)[1..] == "  " + t;
    assert ("  " + t)[1..] == " " + t;
    assert (" " + t)[1..] == t;
    assert TrimStart("    " + t) == TrimStart("   " + t) == TrimStart("  " + t) == TrimStart(" " + t) == t;
    TrimEndFirst(t);
  }

  lemma TrimNothing(t: string)
    requires t != "" && !IsWhitespace(t[0]) && !IsWhitespace(t[|t| - 1])
    ensures Trim(t) == t
  {
  }

  // ---- prefixes ----

  lemma PrefixCancel(p: string, x: string, y: string)
    ensures p + x <= p + y <==> x <= y
  {
    if x <= y {
      assert p + y == p + x + y[|x|..];
    }
    if p + x <= p + y {
      assert |x| <= |y|;
      forall i | 0 <= i < |x| ensures x[i] == y[i] {
        assert x[i] == (p + x)[|p| + i] == (p + y)[|p| + i];
      }
    }
  }

  /** A word is delimited by the first blank after it. */
  lemma WordPrefix(a: string, b: string, rest: string)
    requires Lacks(a, ' ') && Lacks(b, ' ')
    ensures b + " " <= a + " " + rest <==> a == b
  {
    var s := a + " " + rest;
    if b + " " <= s {
      assert s[|b|] == (b + " ")[|b|] == ' ';
      assert s[|a|] == ' ';
      assert forall i :: 0 <= i < |a| ==> s[i] == a[i];
      assert forall i :: 0 <= i < |b| ==> (b + " ")[i] == b[i];
      assert |a| == |b|;
    }
  }
}
