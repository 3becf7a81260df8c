/** When a removal from an arbitrary config really removes the service. The existence test trims the
    line; the removal wants the exact indent that the editor itself writes. */
module ConfigRemoval {
  import opened Text
  import opened Config
  import opened ConfigLines
  import opened ConfigRuns
  import opened ConfigEdits
  import opened ConfigRoundTrip

  /** A rule of the service that stands outside its backend section and not in the editor's own form. */
  predicate Strays(lines: seq<string>, flag: bool, name: string, i: nat)
    requires i < |lines|
  {
    IsMarked(lines[i], name) && !IsRuleOf(lines[i], name) && !Flag(lines[..i + 1], flag, name)
  }

  predicate HasStray(lines: seq<string>, flag: bool, name: string) {
    exists i: nat :: i < |lines| && Strays(lines, flag, name, i)
  }

  // ---- a carriage return at the end of a line does not matter ----

  lemma {:induction false} TrimStartAppend(t: string, c: char)
    requires IsWhitespace(c)
    ensures TrimStart(t + [c]) == if TrimStart(t) == "" then "" else TrimStart(t) + [c]
  {
    hide IsWhitespace;
    if t == "" {
      assert t + [c] == [c] && [c][1..] == "";
    } else if IsWhitespace(t[0]) {
      assert (t + [c])[1..] == t[1..] + [c];
      TrimStartAppend(t[1..], c);
    }
  }

  lemma StripKeepsMark(l: string, name: string)
    ensures IsMarked(StripCr(l), name) <==> IsMarked(l, name)
  {
    if StripCr(l) != l {
      var t := StripCr(l);
      assert l == t + ['\r'];
      TrimStartAppend(t, '\r');
      if TrimStart(t) != "" {
        assert (TrimStart(t) + ['\r'])[..|TrimStart(t)|] == TrimStart(t);
      }
      assert Trim(l) == Trim(t);
    }
  }

  lemma MarkedStripped(ls: seq<string>, name: string)
    ensures MarkedIn(StripAll(ls), name) <==> MarkedIn(ls, name)
  {
    hide IsMarked, StripCr;
    forall i | 0 <= i < |ls| ensures IsMarked(StripAll(ls)[i], name) <==> IsMarked(ls[i], name) {
      StripKeepsMark(ls[i], name);
    }
  }

  lemma LastLine(l: string, name: string)
    requires NoNewline(l)
    ensures MarkedIn(Lines(l), name) <==> IsMarked(l, name)
  {
    if l == "" {
      assert Trim("") == "";
    } else {
      LinesLast(l);
      hide IsMarked, Lines;
      assert [l][0] == l;
    }
  }

  /** Writing lines and reading them back finds the service as before. */
  lemma MarkedWritten(ls: seq<string>, name: string)
    requires AllNoNewline(ls)
    ensures MarkedIn(Lines(Join(ls)), name) <==> MarkedIn(ls, name)
  {
    hide IsMarked, Lines, Lacks, StripAll;
    if ls == [] {
      JoinEmpty();
      LinesEmpty();
    } else {
      var front, last := ls[..|ls| - 1], ls[|ls| - 1];
      JoinUnlines(ls);
      LinesUnlines(front, last);
      MarkedAppend(StripAll(front), Lines(last), name);
      MarkedStripped(front, name);
      LastLine(last, name);
      assert ls == front + [last] && [last][0] == last;
      MarkedAppend(front, [last], name);
    }
  }

  // ---- what the removal scan leaves ----

  lemma StraysCons(ls: seq<string>, flag: bool, name: string, i: nat)
    requires i < |ls|
    ensures Strays(ls, flag, name, i)
      <==> if i == 0 then IsMarked(ls[0], name) && !Drops(ls[0], flag, name)
           else Strays(ls[1..], FlagAfterLine(ls[0], flag, name), name, i - 1)
  {
    hide IsMarked, IsRuleOf, FlagAfterLine;
    var head := ls[..i + 1];
    assert head[0] == ls[0] && head[1..] == ls[1..][..i];
    assert Flag(head, flag, name) == Flag(head[1..], FlagAfterLine(ls[0], flag, name), name);
    if i == 0 {
      assert head[1..] == [];
    }
  }

  lemma HasStrayCons(ls: seq<string>, flag: bool, name: string)
    requires ls != []
    ensures HasStray(ls, flag, name)
      <==> (IsMarked(ls[0], name) && !Drops(ls[0], flag, name))
           || HasStray(ls[1..], FlagAfterLine(ls[0], flag, name), name)
  {
    hide IsMarked, Drops, FlagAfterLine, Strays;
    var rest, flag' := ls[1..], FlagAfterLine(ls[0], flag, name);
    StraysCons(ls, flag, name, 0);
    if i: nat :| i < |rest| && Strays(rest, flag', name, i) {
      StraysCons(ls, flag, name, i + 1);
      assert Strays(ls, flag, name, i + 1);
    }
    if i: nat :| i < |ls| && Strays(ls, flag, name, i) && i > 0 {
      StraysCons(ls, flag, name, i);
      assert Strays(rest, flag', name, i - 1);
    }
  }

  lemma MarkedFirst(line: string, keep: bool, name: string)
    ensures MarkedIn(if keep then [line] else [], name) <==> keep && IsMarked(line, name)
  {
    hide IsMarked;
    assert [line][0] == line;
  }

  lemma {:induction false} KeepsStrays(ls: seq<string>, flag: bool, name: string)
    ensures MarkedIn(Keep(ls, flag, name), name) <==> HasStray(ls, flag, name)
  {
    if ls != [] {
      hide IsMarked, Drops, FlagAfterLine, Strays, MarkedIn, HasStray;
      var rest, flag' := ls[1..], FlagAfterLine(ls[0], flag, name);
      var keep := !Drops(ls[0], flag, name);
      KeepsStrays(rest, flag', name);
      MarkedFirst(ls[0], keep, name);
      MarkedAppend(if keep then [ls[0]] else [], Keep(rest, flag', name), name);
      HasStrayCons(ls, flag, name);
    } else {
      assert Keep(ls, flag, name) == [];
    }
  }

  lemma {:induction false} KeepNoNewline(ls: seq<string>, flag: bool, name: string)
    requires AllNoNewline(ls)
    ensures AllNoNewline(Keep(ls, flag, name))
  {
    if ls != [] {
      hide Drops, FlagAfterLine, Lacks;
      KeepNoNewline(ls[1..], FlagAfterLine(ls[0], flag, name), name);
    }
  }

  /** After a removal that validates, the service is still found exactly when one of its rules stands
      outside its section in a form that the editor does not write. */
  lemma RemovalExactly(content: string, name: string, verdict: Verdict)
    requires !verdict.Rejected?
    ensures ServiceExists(RemoveText(content, name, verdict), name) <==> HasStray(Lines(content), false, name)
  {
    var lines := Lines(content);
    KeepsStrays(lines, false, name);
    if ServiceExists(content, name) {
      hide IsMarked, Lines, Keep, Lacks, Join, Strays;
      LinesNoNewline(content);
      KeepNoNewline(lines, false, name);
      MarkedWritten(Keep(lines, false, name), name);
    }
  }

  function TabbedRule(name: string): string {
    "\t" + AclMarker(name)
  }

  /** A rule indented by a tab is found, and cannot be removed. */
  lemma TabbedRuleStays(name: string, verdict: Verdict)
    requires OkName(name) && !verdict.Rejected?
    ensures var content := TabbedRule(name) + "x\n";
            ServiceExists(content, name) && ServiceExists(RemoveText(content, name, verdict), name)
  {
    var line := TabbedRule(name) + "x";
    var content := TabbedRule(name) + "x\n";
    assert content == line + "\n" + "";
    assert NoNewline(line);
    LinesCons(line, "");
    LinesEmpty();
    assert StripCr(line) == line && Lines(content) == [line];
    assert IsMarked(line, name) by {
      assert line[1..] == AclMarker(name) + "x" && line[0] == '\t';
      TrimNothing(line[1..]);
      assert TrimStart(line) == TrimStart(line[1..]) == line[1..];
    }
    assert !IsRuleOf(line, name) && !IsHeader(line);
    assert [line][..1] == [line] && [line][1..] == [];
    assert Strays(Lines(content), false, name, 0);
    RemovalExactly(content, name, verdict);
    assert IsMarked(Lines(content)[0], name);
  }

  // ---- what goes and what stays ----

  /** A line that continues a section: empty, or indented by a blank or a tab. */
  predicate Continues(line: string) {
    line == "" || line[0] == ' ' || line[0] == '\t'
  }

  lemma KeepParts(before: seq<string>, one: seq<string>, body: seq<string>, after: seq<string>, name: string)
    requires Keep(before, false, name) == before && !Flag(before, false, name)
    requires Keep(one, false, name) == [] && Flag(one, false, name)
    requires Keep(body, true, name) == [] && Flag(body, true, name)
    requires Keep(after, true, name) == after
    ensures Keep(before + one + body + after, false, name) == before + after
  {
    hide Keep, Flag;
    KeepAppend(before, one, false, name);
    KeepAppend(before + one, body, false, name);
    KeepAppend(before + one + body, after, false, name);
    assert before + [] + [] == before;
  }

  /** On any lines, the removal takes the service's section with everything in it up to the next line that is
      not indented, and nothing around it. */
  lemma SectionGoes(before: seq<string>, body: seq<string>, after: seq<string>, name: string)
    requires OkName(name) && AllUntraced(before, name) && AllUntraced(after, name)
    requires forall i :: 0 <= i < |body| ==> Continues(body[i])
    requires after != [] ==> !Continues(after[0])
    ensures Keep(before + [BackendHeader(name)] + body + after, false, name) == before + after
  {
    KeepUntraced(before, name);
    KeepContinued(body, name);
    HeaderOpens(name);
    AfterSection(after, name);
    hide Keep, Flag, AllUntraced, Continues, BackendHeader, OkName;
    KeepParts(before, [BackendHeader(name)], body, after, name);
  }

  lemma KeepContinued(body: seq<string>, name: string)
    requires forall i :: 0 <= i < |body| ==> Continues(body[i])
    ensures Keep(body, true, name) == [] && Flag(body, true, name)
  {
    KeepSection(body, name);
  }

  lemma HeaderOpens(name: string)
    requires OkName(name)
    ensures Keep([BackendHeader(name)], false, name) == [] && Flag([BackendHeader(name)], false, name)
  {
    HeaderFacts(name, name);
    var one := [BackendHeader(name)];
    assert one[1..] == [];
    hide Trim, IsHeader, BackendHeader;
  }

  lemma AfterSection(after: seq<string>, name: string)
    requires AllUntraced(after, name) && (after != [] ==> !Continues(after[0]))
    ensures Keep(after, true, name) == after
  {
    KeepUntraced(after, name);
    if after != [] {
      assert IsHeader(after[0]) && Untraced(after[0], name);
      hide Trim, IsRuleOf, IsHeader;
      assert Keep(after, true, name) == Keep(after, false, name);
    }
  }
}
