/** Adding a service to an arbitrary config and removing it again: when exactly the text comes back
    byte for byte. No representation invariant is assumed; the text is any text with a routing line. */
module ConfigRoundTrip {
  import opened Text
  import opened Config
  import opened ConfigLines
  import opened ConfigRuns
  import opened ConfigEdits
  import opened ConfigShape

  function RoundTrip(content: string, s: Service): string {
    RemoveText(AddText(content, s.name, s.domain, Accepted), s.name, Accepted)
  }

  predicate EndsInNewline(s: string) {
    s != "" && s[|s| - 1] == '\n'
  }

  predicate EndsInReturn(s: string) {
    s != "" && s[|s| - 1] == '\r'
  }

  predicate CrlfAt(s: string, i: nat) {
    i + 1 < |s| && s[i] == '\r' && s[i + 1] == '\n'
  }

  predicate HasCrlf(s: string) {
    exists i: nat :: i < |s| && CrlfAt(s, i)
  }

  function CountCr(s: string): nat {
    if s == "" then 0 else (if s[0] == '\r' then 1 else 0) + CountCr(s[1..])
  }

  function CountCrs(ls: seq<string>): nat {
    if ls == [] then 0 else CountCr(ls[0]) + CountCrs(ls[1..])
  }

  // ---- counting carriage returns ----

  lemma {:induction false} CountCrAppend(a: string, b: string)
    ensures CountCr(a + b) == CountCr(a) + CountCr(b)
  {
    if a == "" {
      assert a + b == b;
    } else {
      assert (a + b)[1..] == a[1..] + b;
      CountCrAppend(a[1..], b);
    }
  }

  lemma {:induction false} CountCrsAppend(a: seq<string>, b: seq<string>)
    ensures CountCrs(a + b) == CountCrs(a) + CountCrs(b)
  {
    if a == [] {
      assert a + b == b;
    } else {
      assert (a + b)[1..] == a[1..] + b;
      CountCrsAppend(a[1..], b);
    }
  }

  lemma StripCounts(l: string)
    ensures CountCr(StripCr(l)) == CountCr(l) - if StripCr(l) == l then 0 else 1
  {
    if StripCr(l) != l {
      var k := |l| - 1;
      assert l == l[..k] + ['\r'];
      CountCrAppend(l[..k], "\r");
      assert CountCr("\r") == 1 by { assert "\r"[1..] == ""; }
    }
  }

  lemma {:induction false} StripAllCounts(ls: seq<string>)
    ensures CountCrs(StripAll(ls)) <= CountCrs(ls)
    ensures StripAll(ls) != ls ==> CountCrs(StripAll(ls)) < CountCrs(ls)
  {
    if ls != [] {
      StripCounts(ls[0]);
      StripAllCounts(ls[1..]);
      assert StripAll(ls)[1..] == StripAll(ls[1..]);
    }
  }

  lemma {:induction false} JoinCounts(ls: seq<string>)
    ensures CountCr(Join(ls)) == CountCrs(ls)
  {
    if |ls| == 1 {
      assert ls[1..] == [];
    } else if |ls| > 1 {
      CountCrAppend(ls[0] + "\n", Join(ls[1..]));
      CountCrAppend(ls[0], "\n");
      assert CountCr("\n") == 0 by { assert "\n"[1..] == ""; }
      JoinCounts(ls[1..]);
    }
  }

  lemma {:induction false} KeepCounts(ls: seq<string>, flag: bool, name: string)
    ensures CountCrs(Keep(ls, flag, name)) <= CountCrs(ls)
  {
    if ls != [] {
      hide Drops, FlagAfterLine;
      var flag' := FlagAfterLine(ls[0], flag, name);
      KeepCounts(ls[1..], flag', name);
      if !Drops(ls[0], flag, name) {
        assert Keep(ls, flag, name)[1..] == Keep(ls[1..], flag', name);
      } else {
        assert Keep(ls, flag, name) == Keep(ls[1..], flag', name);
      }
    }
  }

  // ---- what reading the lines of a text loses ----

  /** A CRLF is either at the end of the first line or in the rest. */
  lemma CrlfSplit(l: string, rest: string)
    requires NoNewline(l)
    ensures HasCrlf(l + "\n" + rest) <==> StripCr(l) != l || HasCrlf(rest)
    ensures EndsInNewline(l + "\n" + rest) <==> rest == "" || EndsInNewline(rest)
    ensures EndsInReturn(l + "\n" + rest) <==> EndsInReturn(rest)
  {
    var s, i := l + "\n" + rest, |l|;
    if HasCrlf(s) {
      var k: nat :| k < |s| && CrlfAt(s, k);
      if k > i {
        assert CrlfAt(rest, k - i - 1);
      }
    }
    if StripCr(l) != l {
      assert CrlfAt(s, i - 1);
    }
    if HasCrlf(rest) {
      var k: nat :| k < |rest| && CrlfAt(rest, k);
      assert CrlfAt(s, i + 1 + k);
    }
  }

  lemma CountsSplit(l: string, rest: string)
    ensures CountCr(l + "\n" + rest) == CountCr(l) + CountCr(rest)
  {
    CountCrAppend(l + "\n", rest);
    CountCrAppend(l, "\n");
    assert CountCr("\n") == 0 by { assert "\n"[1..] == ""; }
  }

  lemma LinesLoseStep(l: string, rest: string)
    requires NoNewline(l)
    requires CountCrs(Lines(rest)) <= CountCr(rest)
    requires HasCrlf(rest) ==> CountCrs(Lines(rest)) < CountCr(rest)
    requires !HasCrlf(rest) ==> Unlines(Lines(rest)) == rest + if rest == "" || EndsInNewline(rest) then "" else "\n"
    requires !HasCrlf(rest) ==> (StripAll(Lines(rest)) == Lines(rest) <==> !EndsInReturn(rest))
    ensures var s := l + "\n" + rest;
            && CountCrs(Lines(s)) <= CountCr(s)
            && (HasCrlf(s) ==> CountCrs(Lines(s)) < CountCr(s))
            && (!HasCrlf(s) ==> Unlines(Lines(s)) == s + if s == "" || EndsInNewline(s) then "" else "\n")
            && (!HasCrlf(s) ==> (StripAll(Lines(s)) == Lines(s) <==> !EndsInReturn(s)))
  {
    hide Lines, HasCrlf, CountCr, EndsInNewline, EndsInReturn, StripCr, Lacks;
    var s := l + "\n" + rest;
    CrlfSplit(l, rest);
    CountsSplit(l, rest);
    StripCounts(l);
    LinesCons(l, rest);
    LinesEmpty();
    assert Lines(s)[0] == StripCr(l) && Lines(s)[1..] == Lines(rest);
    if !HasCrlf(s) {
      assert Unlines(Lines(s)) == l + "\n" + Unlines(Lines(rest));
    }
  }

  /** Reading loses one carriage return for each CRLF and nothing else; writing the lines back adds
      the newline that an unterminated text lacks. */
  lemma {:induction false} LinesLose(s: string)
    ensures CountCrs(Lines(s)) <= CountCr(s)
    ensures HasCrlf(s) ==> CountCrs(Lines(s)) < CountCr(s)
    ensures !HasCrlf(s) ==> Unlines(Lines(s)) == s + if s == "" || EndsInNewline(s) then "" else "\n"
    ensures !HasCrlf(s) ==> (StripAll(Lines(s)) == Lines(s) <==> !EndsInReturn(s))
    decreases |s|
  {
    if s != "" {
      var i := LineEnd(s);
      if i == |s| {
        var none: seq<string> := [s];
        assert none[1..] == [];
        assert !HasCrlf(s);
      } else {
        var l, rest := s[..i], s[i + 1..];
        assert s == l + "\n" + rest;
        LinesLose(rest);
        LinesLoseStep(l, rest);
      }
    }
  }

  /** Dropping a line of the service makes the text at least two characters shorter. */
  lemma {:induction false} KeepShrinks(ls: seq<string>, flag: bool, name: string)
    ensures |Unlines(Keep(ls, flag, name))| <= |Unlines(ls)|
    ensures !AllUntraced(ls, name) ==> |Unlines(Keep(ls, flag, name))| + 2 <= |Unlines(ls)|
  {
    if ls != [] {
      hide IsHeader, IsRuleOf, Trim;
      var flag' := FlagAfterLine(ls[0], flag, name);
      KeepShrinks(ls[1..], flag', name);
      var kept := Keep(ls[1..], flag', name);
      if Drops(ls[0], flag, name) {
        assert Keep(ls, flag, name) == kept;
      } else {
        assert Keep(ls, flag, name)[1..] == kept;
        assert Untraced(ls[0], name);
        assert AllUntraced(ls[1..], name) ==> AllUntraced(ls, name);
      }
      TracedNotEmpty(ls[0], name);
    }
  }

  lemma TracedNotEmpty(line: string, name: string)
    ensures !Untraced(line, name) ==> line != ""
  {
  }

  // ---- the round trip ----

  /** What the removal leaves: the surviving lines of the twice-read text, and the blank line in
      front of the block unless an unfinished section of that name swallowed it. */
  function Left(content: string, name: string): seq<string> {
    var lines := StripAll(Lines(content));
    Keep(lines, false, name) + if Flag(lines, false, name) then [] else [""]
  }

  lemma {:induction false} StripAllAppend(a: seq<string>, b: seq<string>)
    ensures StripAll(a + b) == StripAll(a) + StripAll(b)
  {
  }

  lemma DroppedRules(acl: string, use: string, flag: bool, name: string)
    requires IsRuleOf(acl, name) && IsRuleOf(use, name) && !IsHeader(acl) && !IsHeader(use)
    ensures Keep([acl, use], flag, name) == [] && Flag([acl, use], flag, name) == flag
  {
    hide IsRuleOf, IsHeader, Keep, Flag;
    KeepOne(acl, flag, name);
    KeepOne(use, flag, name);
    KeepAppend([acl], [use], flag, name);
    assert [acl] + [use] == [acl, use];
  }

  lemma OwnBlockFrom(flag: bool, name: string)
    requires OkName(name)
    ensures Keep([""] + BlockLines(name), flag, name) == if flag then [] else [""]
  {
    if flag {
      BlockFacts(name, name);
      BlockLength(name);
      hide BlockLines, OkName;
      var h, body := BlockLines(name)[0], BlockLines(name)[1..];
      KeepSection(body, name);
      var block := [""] + BlockLines(name);
      assert block[1..] == BlockLines(name);
      assert Keep(BlockLines(name), true, name) == Keep(body, true, name);
    } else {
      KeepOwnBlock(name);
    }
  }

  lemma KeepInserted(a: seq<string>, b: seq<string>, s: Service)
    requires OkService(s)
    ensures var x := a + [AclLine(s.name, s.domain), UseLine(s.name)] + b + ([""] + BlockLines(s.name));
            Keep(x, false, s.name)
            == Keep(a + b, false, s.name) + if Flag(a + b, false, s.name) then [] else [""]
  {
    hide IsHeader, IsRuleOf, BlockLines, AclLine, UseLine, Keep, Flag;
    var name := s.name;
    var acl, use := AclLine(name, s.domain), UseLine(name);
    AclLineFacts(name, s.domain, name);
    UseLineFacts(name, name);
    var flag := Flag(a, false, name);
    DroppedRules(acl, use, flag, name);
    KeepAppend(a, [acl, use], false, name);
    KeepAppend(a + [acl, use], b, false, name);
    KeepAppend(a + [acl, use] + b, [""] + BlockLines(name), false, name);
    KeepAppend(a, b, false, name);
    OwnBlockFrom(Flag(a + b, false, name), name);
  }

  lemma StripFour(a: seq<string>, rules: seq<string>, b: seq<string>, block: seq<string>)
    requires AllClean(rules) && AllClean(block)
    ensures StripAll(a + rules + b + block) == StripAll(a) + rules + StripAll(b) + block
  {
    hide StripCr, Clean;
    StripAllAppend(a, rules);
    StripAllAppend(a + rules, b);
    StripAllAppend(a + rules + b, block);
    assert StripAll(rules) == rules by { StripAllClean(rules); }
    assert StripAll(block) == block by { StripAllClean(block); }
  }

  lemma BlockClean(name: string)
    requires OkName(name)
    ensures AllClean([""] + BlockLines(name))
  {
    BlockFacts(name, name);
    BlankPlain(name);
  }

  lemma RulesClean(s: Service)
    requires OkService(s)
    ensures AllClean([AclLine(s.name, s.domain), UseLine(s.name)])
  {
    AclLineClean(s.name, s.domain);
    UseLineFacts(s.name, s.name);
  }

  lemma ReadBack(ls: seq<string>)
    requires AllNoNewline(ls)
    ensures Lines(Unlines(ls)) == StripAll(ls)
  {
    hide StripCr, Lacks, Unlines;
    LinesUnlines(ls, "");
    LinesEmpty();
    assert Unlines(ls) + "" == Unlines(ls);
  }

  lemma StripSplit(ls: seq<string>, k: nat)
    requires k <= |ls|
    ensures StripAll(ls)[..k] == StripAll(ls[..k]) && StripAll(ls)[k..] == StripAll(ls[k..])
  {
    hide StripCr, StripAll;
  }

  /** The lines of a text that a service has been added to. */
  lemma InsertedText(content: string, s: Service)
    requires OkService(s)
    ensures var lines, k := StripAll(Lines(content)), Position(Lines(content));
            Lines(Inserted(content, s.name, s.domain))
            == lines[..k] + [AclLine(s.name, s.domain), UseLine(s.name)] + lines[k..] + ([""] + BlockLines(s.name))
  {
    RulesClean(s);
    BlockClean(s.name);
    hide AclLine, UseLine, BlockLines, Lines, IsAnchor, StripCr, BackendBlock, OkService, Unlines, Join, Lacks, StripAll;
    var lines, k := Lines(content), Position(Lines(content));
    var a, b := lines[..k], lines[k..];
    var rules, block := [AclLine(s.name, s.domain), UseLine(s.name)], [""] + BlockLines(s.name);
    LinesNoNewline(content);
    BlockText(a + rules + b, s.name);
    assert AllNoNewline(a) && AllNoNewline(b) && AllNoNewline(rules) && AllNoNewline(block);
    assert AllNoNewline(a + rules + b + block);
    hide AllNoNewline, AllClean;
    ReadBack(a + rules + b + block);
    StripFour(a, rules, b, block);
    StripSplit(lines, k);
  }

  lemma JoinEmpty()
    ensures Join([]) == ""
  {
  }

  lemma LinesEmpty()
    ensures Lines("") == []
  {
  }

  /** A service just added is found, and the removal leaves what the addition did not bring. */
  lemma InsertedFound(content: string, s: Service)
    requires OkService(s)
    ensures ServiceExists(Inserted(content, s.name, s.domain), s.name)
    ensures Filtered(Inserted(content, s.name, s.domain), s.name) == Join(Left(content, s.name))
  {
    AclLineFacts(s.name, s.domain, s.name);
    hide AclLine, UseLine, BlockLines, Lines, IsAnchor, StripCr, IsMarked, OkService, Inserted, Keep, Flag, Join, IsHeader,
         IsRuleOf, Trim;
    InsertedText(content, s);
    var lines, k := StripAll(Lines(content)), Position(Lines(content));
    KeepInserted(lines[..k], lines[k..], s);
    assert lines[..k] + lines[k..] == lines;
    var read := Lines(Inserted(content, s.name, s.domain));
    assert read[k] == AclLine(s.name, s.domain);
    assert MarkedIn(read, s.name);
  }

  lemma RoundTripText(content: string, s: Service)
    requires OkService(s) && HasAnchor(Lines(content)) && !ServiceExists(content, s.name)
    ensures RoundTrip(content, s) == Join(Left(content, s.name))
  {
    hide OkService, HasAnchor, ServiceExists, Inserted, Filtered, Left, Lines, Join;
    InsertedFound(content, s);
  }

  /** The byte-exact round trip, with its exact condition: the text ends in a newline, has no CRLF
      line ending, and has no line that the removal would attribute to the service. */
  lemma RoundTripExactly(content: string, s: Service)
    requires OkService(s) && HasAnchor(Lines(content)) && !ServiceExists(content, s.name)
    ensures RoundTrip(content, s) == content
      <==> EndsInNewline(content) && !HasCrlf(content) && AllUntraced(Lines(content), s.name)
  {
    hide OkService, RoundTrip, Lines, IsAnchor, HasCrlf, CountCr, CountCrs, Keep, Flag, Join, Unlines, Untraced, Left;
    RoundTripText(content, s);
    LinesLose(content);
    if RoundTrip(content, s) == content {
      assert content + "" == content;
      NothingDropped(content, s.name, "");
    }
    if EndsInNewline(content) && !HasCrlf(content) && AllUntraced(Lines(content), s.name) {
      LeftPlain(content, s.name);
      assert content + "" == content;
    }
  }

  lemma LeftCounts(lines: seq<string>, flag: bool, name: string)
    ensures CountCrs(Keep(lines, false, name) + if flag then [] else [""]) <= CountCrs(lines)
  {
    KeepCounts(lines, false, name);
    assert CountCrs([""]) == 0 by { assert [""][1..] == []; }
    hide CountCrs, Keep;
    CountCrsAppend(Keep(lines, false, name), [""]);
    assert Keep(lines, false, name) + [] == Keep(lines, false, name);
  }

  /** A text that comes back as it was, or with one newline more, has lost no carriage return. */
  lemma NothingStripped(content: string, name: string, extra: string)
    requires Join(Left(content, name)) == content + extra && CountCr(extra) == 0
    ensures !HasCrlf(content) && StripAll(Lines(content)) == Lines(content)
  {
    hide Lines, HasCrlf, Keep, Flag, CountCr, CountCrs, StripAll, Unlines, Join, EndsInNewline, EndsInReturn;
    var read := Lines(content);
    var lines := StripAll(read);
    LinesLose(content);
    JoinCounts(Left(content, name));
    CountCrAppend(content, extra);
    LeftCounts(lines, Flag(lines, false, name), name);
    StripAllCounts(read);
  }

  /** A text that comes back as it was, or with one newline more, has lost no line. */
  lemma NothingDropped(content: string, name: string, extra: string)
    requires HasAnchor(Lines(content))
    requires Join(Left(content, name)) == content + extra && (extra == "" || extra == "\n")
    ensures !HasCrlf(content) && StripAll(Lines(content)) == Lines(content)
    ensures AllUntraced(Lines(content), name) && (EndsInNewline(content) <==> extra == "")
  {
    var lines, left := Lines(content), Left(content, name);
    hide Lines, IsAnchor, HasCrlf, Keep, Flag, Untraced;
    assert CountCr(extra) == 0 by { assert "\n"[1..] == ""; }
    NothingStripped(content, name, extra);
    LinesLose(content);
    KeepShrinks(lines, false, name);
    UnlinesAppend(Keep(lines, false, name), [""]);
    assert Unlines([""]) == "\n" by { assert [""][1..] == []; }
    assert content != "" by { LinesEmpty(); }
    JoinUnlines(left) by { assert left != [] by { JoinEmpty(); } }
    assert left == Keep(lines, false, name) || left == Keep(lines, false, name) + [""];
    assert |content| + |extra| + 1 == |Unlines(left)|;
    assert AllUntraced(lines, name);
    KeepUntraced(lines, name);
  }

  /** The text comes back with exactly one newline more if and only if it has no line end after its
      last line, has no carriage return at a line's end, and has no line attributed to the service. */
  lemma RoundTripGainsNewline(content: string, s: Service)
    requires OkService(s) && HasAnchor(Lines(content)) && !ServiceExists(content, s.name)
    ensures RoundTrip(content, s) == content + "\n"
      <==> !EndsInNewline(content) && !EndsInReturn(content) && !HasCrlf(content)
           && AllUntraced(Lines(content), s.name)
  {
    hide OkService, RoundTrip, Lines, IsAnchor, HasCrlf, CountCr, CountCrs, Keep, Flag, Join, Unlines, Untraced, Left;
    RoundTripText(content, s);
    LinesLose(content);
    if RoundTrip(content, s) == content + "\n" {
      NothingDropped(content, s.name, "\n");
    }
    if !EndsInNewline(content) && !EndsInReturn(content) && !HasCrlf(content) && AllUntraced(Lines(content), s.name) {
      LeftPlain(content, s.name);
      assert content != "" by { LinesEmpty(); }
    }
  }

  /** With nothing to drop, what is left is the text with its last line terminated. */
  lemma LeftPlain(content: string, name: string)
    requires AllUntraced(Lines(content), name) && StripAll(Lines(content)) == Lines(content)
    ensures Join(Left(content, name)) == Unlines(Lines(content))
  {
    var lines := Lines(content);
    hide Lines, Untraced, Keep, Flag, Join, Unlines;
    KeepUntraced(lines, name);
    JoinUnlines(Left(content, name));
    assert Left(content, name)[..|lines|] == lines;
    UnlinesAppend(lines, []);
    assert Unlines(lines) + "" == Unlines(lines);
  }

  const CRLF_CONFIG := "default_backend v\r" + "\n"

  /** A config with CRLF line endings does not survive, whatever the service. */
  lemma CrlfConfigChanges(s: Service)
    requires OkService(s)
    ensures HasAnchor(Lines(CRLF_CONFIG)) && !ServiceExists(CRLF_CONFIG, s.name)
    ensures RoundTrip(CRLF_CONFIG, s) != CRLF_CONFIG
  {
    var l := "default_backend v";
    assert CRLF_CONFIG == (l + "\r") + "\n" + "";
    LinesCons(l + "\r", "");
    LinesEmpty();
    assert StripCr(l + "\r") == l;
    assert Lines(CRLF_CONFIG) == [l];
    TrimNothing(l);
    assert "default_backend" <= l && l[0] == 'd' && AclMarker(s.name)[0] == 'a';
    assert CrlfAt(CRLF_CONFIG, 17);
    RoundTripExactly(CRLF_CONFIG, s);
  }
}
