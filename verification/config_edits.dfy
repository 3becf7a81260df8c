/** Every edit of a rendered config is the rendering of the edited collection, so every run of
    edits is too; what the text says about a service follows. */
module ConfigEdits {
  import opened Text
  import opened Config
  import opened ConfigLines
  import opened ConfigRuns

  /** A change request to the editor, with what `haproxy -c` and the reload made of it. */
  datatype Edit =
    | Add(service: Service, verdict: Verdict)
    | Remove(name: string, verdict: Verdict)

  /** The edit on the collection. */
  function Apply(svcs: seq<Service>, e: Edit): seq<Service> {
    match e
    case Add(s, verdict) => if Has(svcs, s.name) || verdict.Rejected? then svcs else svcs + [s]
    case Remove(name, verdict) => if verdict.Rejected? then svcs else Without(svcs, name)
  }

  /** The edit on the text. */
  function EditText(content: string, e: Edit): string {
    match e
    case Add(s, verdict) => AddText(content, s.name, s.domain, verdict)
    case Remove(name, verdict) => RemoveText(content, name, verdict)
  }

  function ApplyAll(svcs: seq<Service>, edits: seq<Edit>): seq<Service>
    decreases |edits|
  {
    if edits == [] then svcs else ApplyAll(Apply(svcs, edits[0]), edits[1..])
  }

  function EditAll(content: string, edits: seq<Edit>): string
    decreases |edits|
  {
    if edits == [] then content else EditAll(EditText(content, edits[0]), edits[1..])
  }

  /** An edit about a well-formed service that the base text does not mention. */
  predicate OkEdit(base: seq<string>, e: Edit) {
    match e
    case Add(s, _) => OkService(s) && Fresh(base, s.name)
    case Remove(name, _) => OkName(name) && Fresh(base, name)
  }

  // ---- a rendered config in the eyes of the editor ----

  lemma AllCleanAppend(a: seq<string>, b: seq<string>)
    requires AllClean(a) && AllClean(b)
    ensures AllClean(a + b)
  {
    hide Clean;
  }

  lemma RenderClean(base: seq<string>, svcs: seq<Service>)
    requires AllClean(base)
    requires forall i :: 0 <= i < |svcs| ==> OkService(svcs[i])
    ensures AllClean(Render(base, svcs))
    ensures svcs != [] ==> Render(base, svcs) != [] && Render(base, svcs)[|Render(base, svcs)| - 1] != ""
  {
    hide Clean, IsHeader, IsAnchor, IsMarked, IsRuleOf, OkService, Acls, Uses, Blocks;
    AclsFacts(svcs, "x");
    UsesFacts(svcs, "x");
    BlocksFacts(svcs, "x");
    var i := Position(base);
    assert AllClean(base[..i]) && AllClean(base[i..]) && AllClean(Blocks(svcs));
    AllCleanAppend(base[..i], Acls(svcs));
    AllCleanAppend(base[..i] + Acls(svcs), Uses(svcs));
    AllCleanAppend(base[..i] + Acls(svcs) + Uses(svcs), base[i..]);
    AllCleanAppend(base[..i] + Acls(svcs) + Uses(svcs) + base[i..], Blocks(svcs));
  }

  /** A service is found in the text exactly when it is in the collection. */
  lemma MarkedExactly(base: seq<string>, svcs: seq<Service>, name: string)
    requires OkName(name) && Fresh(base, name)
    requires forall i :: 0 <= i < |svcs| ==> OkService(svcs[i])
    ensures MarkedIn(Render(base, svcs), name) <==> Has(svcs, name)
  {
    hide IsHeader, IsAnchor, IsMarked, IsRuleOf, Clean, Acls, Uses, Blocks, OkService, Position;
    var i := Position(base);
    var acls, uses, blocks := Acls(svcs), Uses(svcs), Blocks(svcs);
    AclsFacts(svcs, name);
    UsesFacts(svcs, name);
    BlocksFacts(svcs, name);
    RulesLength(svcs);
    assert base[..i] + base[i..] == base;
    MarkedAppend(base[..i], base[i..], name);
    MarkedAppend(base[..i], acls, name);
    MarkedAppend(base[..i] + acls, uses, name);
    MarkedAppend(base[..i] + acls + uses, base[i..], name);
    MarkedAppend(base[..i] + acls + uses + base[i..], blocks, name);
    if Has(svcs, name) {
      assert IsMarked(acls[IndexOf(svcs, name)], name);
    }
  }

  lemma RulesLength(svcs: seq<Service>)
    ensures |Acls(svcs)| == |svcs| && |Uses(svcs)| == |svcs|
  {
  }

  /** New rules go between the rules and the routing lines already there. */
  lemma RenderPosition(base: seq<string>, svcs: seq<Service>)
    requires HasAnchor(base)
    requires forall i :: 0 <= i < |svcs| ==> OkService(svcs[i])
    ensures Position(Render(base, svcs)) == Position(base) + |svcs|
  {
    hide Clean, IsHeader, IsAnchor, IsMarked, IsRuleOf, Fresh, OkService, Acls, Uses, Blocks;
    AclsFacts(svcs, "x");
    UsesFacts(svcs, "x");
    var i := Position(base);
    var r, acls, uses := Render(base, svcs), Acls(svcs), Uses(svcs);
    RulesLength(svcs);
    var k := i + |svcs|;
    assert forall j :: 0 <= j < i ==> r[j] == base[j];
    assert forall j :: i <= j < k ==> r[j] == acls[j - i];
    assert r[k] == if svcs == [] then base[i] else uses[0];
  }

  /** Two lines put after the first two of five parts, and more at the end. */
  lemma Woven(pre: seq<string>, acls: seq<string>, uses: seq<string>, post: seq<string>, blocks: seq<string>,
              acl: string, use: string, block: seq<string>)
    ensures var r, k := pre + acls + uses + post + blocks, |pre + acls|;
            r[..k] + [acl, use] + r[k..] + block == pre + (acls + [acl]) + ([use] + uses) + post + (blocks + block)
  {
    var r, k := pre + acls + uses + post + blocks, |pre + acls|;
    assert r[..k] == pre + acls && r[k..] == uses + post + blocks;
  }

  lemma RenderMore(base: seq<string>, svcs: seq<Service>, s: Service)
    ensures var i := Position(base);
            Render(base, svcs + [s])
            == base[..i] + (Acls(svcs) + [AclLine(s.name, s.domain)]) + ([UseLine(s.name)] + Uses(svcs)) + base[i..]
               + (Blocks(svcs) + ([""] + BlockLines(s.name)))
  {
    AclsAppend(svcs, [s]);
    BlocksAppend(svcs, [s]);
    BlocksOne(s);
    assert Acls([s]) == [AclLine(s.name, s.domain)] && Uses([s]) == [UseLine(s.name)];
    hide Acls, Uses, Blocks, BlockLines, Position, AclLine, UseLine;
  }

  /** The lines put into the text are the lines that the new service adds to the rendering. */
  lemma InsertedLines(base: seq<string>, svcs: seq<Service>, s: Service)
    requires HasAnchor(base)
    requires forall i :: 0 <= i < |svcs| ==> OkService(svcs[i])
    ensures var r := Render(base, svcs);
            var k := Position(r);
            r[..k] + [AclLine(s.name, s.domain), UseLine(s.name)] + r[k..] + ([""] + BlockLines(s.name))
            == Render(base, svcs + [s])
  {
    hide IsAnchor, OkService, Blocks, BlockLines, AclLine, UseLine, Acls, Uses, Position;
    RenderPosition(base, svcs);
    RenderMore(base, svcs, s);
    RulesLength(svcs);
    var i := Position(base);
    assert Position(Render(base, svcs)) == |base[..i] + Acls(svcs)|;
    Woven(base[..i], Acls(svcs), Uses(svcs), base[i..], Blocks(svcs),
          AclLine(s.name, s.domain), UseLine(s.name), [""] + BlockLines(s.name));
  }

  lemma BlockText(x: seq<string>, name: string)
    ensures Join(x + [BackendBlock(name)]) == Unlines(x + ([""] + BlockLines(name)))
  {
    hide BlockLines;
    var block := [""] + BlockLines(name);
    JoinUnlines(x + [BackendBlock(name)]);
    assert (x + [BackendBlock(name)])[..|x|] == x;
    UnlinesAppend(x, block);
    assert block[1..] == BlockLines(name);
    assert Unlines(block) == BackendBlock(name);
  }

  /** Adding an absent service writes the rendering of the collection with it at the end. */
  lemma AddRenders(base: seq<string>, svcs: seq<Service>, content: string, s: Service)
    requires OkBase(base)
    requires OkService(s) && forall i :: 0 <= i < |svcs| ==> OkService(svcs[i])
    requires Lines(content) == Render(base, svcs)
    ensures Inserted(content, s.name, s.domain) == Unlines(Render(base, svcs + [s]))
    ensures Lines(Inserted(content, s.name, s.domain)) == Render(base, svcs + [s])
  {
    hide IsAnchor, OkService, BlockLines, AclLine, UseLine, Render, BackendBlock, Lines, Unlines, Join;
    InsertedLines(base, svcs, s);
    var r := Render(base, svcs);
    var k := Position(r);
    BlockText(r[..k] + [AclLine(s.name, s.domain), UseLine(s.name)] + r[k..], s.name);
    RenderClean(base, svcs + [s]);
    UnlinesClean(Render(base, svcs + [s]));
  }

  lemma UnlinesClean(ls: seq<string>)
    requires AllClean(ls)
    ensures Lines(Unlines(ls)) == ls
  {
    LinesUnlines(ls, "");
    StripAllClean(ls);
    assert Unlines(ls) + "" == Unlines(ls);
  }

  /** Removing a present service keeps exactly the lines of the others; when its section was the
      last one, the blank line in front of it stays. */
  lemma KeepRenders(base: seq<string>, svcs: seq<Service>, name: string)
    requires Manages(base, svcs) && Has(svcs, name)
    ensures var last := IndexOf(svcs, name) == |svcs| - 1;
            Keep(Render(base, svcs), false, name) == Render(base, Without(svcs, name)) + if last then [""] else []
  {
    hide Clean, IsHeader, IsAnchor, IsMarked, IsRuleOf, Keep, Flag, Acls, Uses, Blocks, BlockLines, OkService, MarkedIn;
    var i, k := Position(base), IndexOf(svcs, name);
    var a, b, s := svcs[..k], svcs[k + 1..], svcs[k];
    assert svcs == a + [s] + b && Without(svcs, name) == a + b;
    KeepRules(a, s, b);
    KeepBlocks(a, s, b);
    assert Fresh(base, name);
    var pre, post, acls, uses, blocks := base[..i], base[i..], Acls(svcs), Uses(svcs), Blocks(svcs);
    KeepUntraced(pre, name);
    KeepUntraced(post, name);
    hide IndexOf, Without, Position, Manages, Lone;
    KeepFive(pre, acls, uses, post, blocks, name);
  }

  lemma KeepFive(pre: seq<string>, acls: seq<string>, uses: seq<string>, post: seq<string>, blocks: seq<string>,
                 name: string)
    requires !Flag(pre, false, name) && !Flag(acls, false, name)
    requires !Flag(uses, false, name) && !Flag(post, false, name)
    ensures Keep(pre + acls + uses + post + blocks, false, name)
         == Keep(pre, false, name) + Keep(acls, false, name) + Keep(uses, false, name)
            + Keep(post, false, name) + Keep(blocks, false, name)
  {
    hide Keep, Flag;
    KeepAppend(pre, acls, false, name);
    KeepAppend(pre + acls, uses, false, name);
    KeepAppend(pre + acls + uses, post, false, name);
    KeepAppend(pre + acls + uses + post, blocks, false, name);
  }

  predicate Lone(a: seq<Service>, s: Service, b: seq<Service>) {
    && OkService(s)
    && (forall i :: 0 <= i < |a| ==> OkService(a[i]) && a[i].name != s.name)
    && (forall i :: 0 <= i < |b| ==> OkService(b[i]) && b[i].name != s.name)
  }

  lemma KeepOne(line: string, flag: bool, name: string)
    requires IsRuleOf(line, name) && !IsHeader(line)
    ensures Keep([line], flag, name) == [] && Flag([line], flag, name) == flag
  {
    hide IsRuleOf, IsHeader;
    var one := [line];
    assert one[1..] == [] && FlagAfterLine(line, flag, name) == flag;
    assert Keep(one[1..], flag, name) == [] && Flag(one[1..], flag, name) == flag;
  }

  lemma KeepRules(a: seq<Service>, s: Service, b: seq<Service>)
    requires Lone(a, s, b)
    ensures Keep(Acls(a + [s] + b), false, s.name) == Acls(a + b) && !Flag(Acls(a + [s] + b), false, s.name)
    ensures Keep(Uses(a + [s] + b), false, s.name) == Uses(a + b) && !Flag(Uses(a + [s] + b), false, s.name)
  {
    hide Clean, IsHeader, IsAnchor, IsMarked, IsRuleOf, Keep, Flag;
    var name := s.name;
    AclsFacts(a, name); AclsFacts([s], name); AclsFacts(b, name);
    UsesFacts(a, name); UsesFacts([s], name); UsesFacts(b, name);
    AclsAppend(a, [s]); AclsAppend(a + [s], b); AclsAppend(a, b);
    KeepUntraced(Acls(a), name); KeepUntraced(Acls(b), name);
    KeepUntraced(Uses(a), name); KeepUntraced(Uses(b), name);
    assert Acls([s]) == [Acls([s])[0]] && Uses([s]) == [Uses([s])[0]];
    KeepOne(Acls([s])[0], false, name);
    KeepOne(Uses([s])[0], false, name);
    KeepAppend(Acls(a), Acls([s]), false, name);
    KeepAppend(Acls(a) + Acls([s]), Acls(b), false, name);
    KeepAppend(Uses(b), Uses([s]), false, name);
    KeepAppend(Uses(b) + Uses([s]), Uses(a), false, name);
    assert Uses(b) + (Uses([s]) + Uses(a)) == Uses(b) + Uses([s]) + Uses(a);
  }

  lemma KeepBlocks(a: seq<Service>, s: Service, b: seq<Service>)
    requires Lone(a, s, b)
    ensures Keep(Blocks(a + [s] + b), false, s.name) == Blocks(a + b) + if b == [] then [""] else []
  {
    hide Clean, IsHeader, IsAnchor, IsMarked, IsRuleOf, Keep, Flag, BlockLines;
    var name := s.name;
    BlocksFacts(a, name);
    BlocksFacts(b, name);
    BlocksAppend(a, [s]);
    BlocksAppend(a + [s], b);
    BlocksAppend(a, b);
    BlocksOne(s);
    KeepUntraced(Blocks(a), name);
    KeepOwnBlock(name);
    KeepAppend(Blocks(a), Blocks([s]), false, name);
    KeepAppend(Blocks(a) + Blocks([s]), Blocks(b), false, name);
    if b == [] {
      KeepSection([], name);
    } else {
      KeepNextBlock(b, name);
      assert Blocks(b) == [""] + Blocks(b)[1..];
    }
  }

  lemma KeepOwnBlock(name: string)
    requires OkName(name)
    ensures Keep([""] + BlockLines(name), false, name) == [""]
    ensures Flag([""] + BlockLines(name), false, name)
  {
    var h, body := BlockLines(name)[0], BlockLines(name)[1..];
    BlockFacts(name, name);
    KeepSection(body, name);
    assert [""] + BlockLines(name) == [""] + ([h] + body);
    assert ([h] + body)[1..] == body && ([""] + ([h] + body))[1..] == [h] + body;
    BlankPlain(name);
  }

  /** The blank line after a removed section goes with it; the next header ends the removal. */
  lemma KeepNextBlock(b: seq<Service>, name: string)
    requires b != [] && OkName(name)
    requires forall i :: 0 <= i < |b| ==> OkService(b[i]) && b[i].name != name
    ensures Blocks(b) != []
    ensures Keep(Blocks(b), true, name) == Blocks(b)[1..]
  {
    BlocksFacts(b, name);
    BlockFacts(b[0].name, name);
    var rest := Blocks(b)[1..];
    assert rest == BlockLines(b[0].name) + Blocks(b[1..]);
    assert Untraced(rest[0], name) && IsHeader(rest[0]);
    assert AllUntraced(rest, name);
    KeepUntraced(rest, name);
    assert Keep(rest, true, name) == Keep(rest, false, name);
  }

  /** Removing a present service writes the rendering of the others; only when its section was the
      last one does the new text end in a newline. */
  lemma RemoveRenders(base: seq<string>, svcs: seq<Service>, content: string, name: string)
    requires OkBase(base) && Manages(base, svcs) && Has(svcs, name)
    requires Lines(content) == Render(base, svcs)
    ensures var r := Render(base, Without(svcs, name));
            && Filtered(content, name) == (if IndexOf(svcs, name) == |svcs| - 1 then Unlines(r) else Join(r))
            && Lines(Filtered(content, name)) == r
  {
    hide Clean, IsHeader, IsAnchor, IsMarked, IsRuleOf, Fresh, OkService, Render, Lines, Unlines, Join, Keep;
    KeepRenders(base, svcs, name);
    var rest := Without(svcs, name);
    var r := Render(base, rest);
    RenderClean(base, rest);
    if IndexOf(svcs, name) == |svcs| - 1 {
      LinesJoinBlank(r);
    } else {
      assert rest != [];
      LinesJoin(r);
      assert r + [] == r;
    }
  }

  lemma WithoutFacts(svcs: seq<Service>, name: string)
    requires Distinct(svcs)
    ensures Distinct(Without(svcs, name)) && !Has(Without(svcs, name), name)
    ensures forall i :: 0 <= i < |Without(svcs, name)| ==> Without(svcs, name)[i] in svcs
    ensures forall other :: other != name ==> (Has(Without(svcs, name), other) <==> Has(svcs, other))
  {
    var k, rest := IndexOf(svcs, name), Without(svcs, name);
    forall other | other != name && Has(svcs, other) ensures Has(rest, other) {
      var i := IndexOf(svcs, other);
      assert svcs[i] == if k < i && k < |svcs| then rest[i - 1] else rest[i];
    }
  }

  /** One edit of a rendered config, whatever the outcome, renders the edited collection. */
  lemma EditRenders(base: seq<string>, svcs: seq<Service>, content: string, e: Edit)
    requires OkBase(base) && Manages(base, svcs) && OkEdit(base, e)
    requires Lines(content) == Render(base, svcs)
    ensures Manages(base, Apply(svcs, e))
    ensures Lines(EditText(content, e)) == Render(base, Apply(svcs, e))
  {
    hide Clean, IsHeader, IsAnchor, IsMarked, IsRuleOf, Fresh, OkService, Render, Lines, Filtered, Inserted;
    match e
    case Add(s, verdict) =>
      MarkedExactly(base, svcs, s.name) by {
        assert OkName(s.name) by { OkServiceName(s); }
      }
      RenderPosition(base, svcs);
      RenderLength(base, svcs);
      if !Has(svcs, s.name) && !verdict.Rejected? {
        AddRenders(base, svcs, content, s);
      }
    case Remove(name, verdict) =>
      MarkedExactly(base, svcs, name);
      WithoutFacts(svcs, name);
      if Has(svcs, name) && !verdict.Rejected? {
        RemoveRenders(base, svcs, content, name);
      }
  }

  lemma OkServiceName(s: Service)
    requires OkService(s)
    ensures OkName(s.name)
  {
  }

  lemma RenderLength(base: seq<string>, svcs: seq<Service>)
    ensures |Render(base, svcs)| >= |base| + 2 * |svcs|
    ensures Render(base, []) == base
  {
    assert base[..Position(base)] + base[Position(base)..] == base;
  }

  /** The representation invariant over every run: the text always is the base with the services
      still present, rules and sections in order of addition, routing lines in reverse. */
  lemma {:induction false} RunRenders(base: seq<string>, svcs: seq<Service>, content: string, edits: seq<Edit>)
    requires OkBase(base) && Manages(base, svcs) && Lines(content) == Render(base, svcs)
    requires forall i :: 0 <= i < |edits| ==> OkEdit(base, edits[i])
    ensures Manages(base, ApplyAll(svcs, edits))
    ensures Lines(EditAll(content, edits)) == Render(base, ApplyAll(svcs, edits))
    decreases |edits|
  {
    hide OkBase, Manages, Lines, Render, OkEdit, Apply, EditText;
    if edits != [] {
      EditRenders(base, svcs, content, edits[0]);
      RunRenders(base, Apply(svcs, edits[0]), EditText(content, edits[0]), edits[1..]);
    }
  }

  /** The same from a config file that holds only its base text. */
  lemma RunFromBase(content: string, edits: seq<Edit>)
    requires OkBase(Lines(content))
    requires forall i :: 0 <= i < |edits| ==> OkEdit(Lines(content), edits[i])
    ensures Manages(Lines(content), ApplyAll([], edits))
    ensures Lines(EditAll(content, edits)) == Render(Lines(content), ApplyAll([], edits))
  {
    RenderLength(Lines(content), []);
    RunRenders(Lines(content), [], content, edits);
  }

  lemma AddEffect(base: seq<string>, svcs: seq<Service>, content: string, s: Service)
    requires OkBase(base) && Manages(base, svcs) && Lines(content) == Render(base, svcs)
    requires !Has(svcs, s.name) && OkService(s) && Fresh(base, s.name)
    ensures Manages(base, svcs + [s])
    ensures EditText(content, Add(s, Accepted)) == Unlines(Render(base, svcs + [s]))
    ensures Lines(EditText(content, Add(s, Accepted))) == Render(base, svcs + [s])
  {
    hide Clean, IsHeader, IsAnchor, IsMarked, IsRuleOf, Fresh, OkDomain, OkName, Render, Lines, Inserted, Unlines;
    EditRenders(base, svcs, content, Add(s, Accepted));
    MarkedExactly(base, svcs, s.name);
    RenderPosition(base, svcs);
    RenderLength(base, svcs);
    AddRenders(base, svcs, content, s);
  }

  lemma RemoveEffect(base: seq<string>, svcs: seq<Service>, content: string, name: string)
    requires OkBase(base) && Manages(base, svcs) && Lines(content) == Render(base, svcs) && Has(svcs, name)
    ensures var rest := Without(svcs, name);
            var text := EditText(content, Remove(name, Accepted));
            && Manages(base, rest) && !Has(rest, name)
            && text == (if IndexOf(svcs, name) == |svcs| - 1 then Unlines(Render(base, rest)) else Join(Render(base, rest)))
            && Lines(text) == Render(base, rest)
  {
    hide Clean, IsHeader, IsAnchor, IsMarked, IsRuleOf, Fresh, OkDomain, OkName, Render, Lines, Filtered, Unlines, Join;
    assert OkService(svcs[IndexOf(svcs, name)]);
    EditRenders(base, svcs, content, Remove(name, Accepted));
    MarkedExactly(base, svcs, name);
    WithoutFacts(svcs, name);
    RemoveRenders(base, svcs, content, name);
  }

  /** Removing A and adding B commute on every reachable config with A present and B absent. The
      lines are the same; the texts differ in exactly the final newline, which only the add writes. */
  lemma RemoveAddCommute(base: seq<string>, svcs: seq<Service>, content: string, name: string, s: Service)
    requires OkBase(base) && Manages(base, svcs) && Lines(content) == Render(base, svcs)
    requires Has(svcs, name) && !Has(svcs, s.name) && OkService(s) && Fresh(base, s.name)
    ensures var removeLast := EditText(EditText(content, Add(s, Accepted)), Remove(name, Accepted));
            var addLast := EditText(EditText(content, Remove(name, Accepted)), Add(s, Accepted));
            && Lines(removeLast) == Lines(addLast)
            && removeLast + "\n" == addLast
  {
    hide OkBase, Manages, Fresh, OkService, Render, Lines, EditText, Join, Unlines, Distinct;
    var both, rest := svcs + [s], Without(svcs, name);
    IndexOfAppend(svcs, s, name);
    assert Without(both, name) == rest + [s];
    AddEffect(base, svcs, content, s);
    RemoveEffect(base, both, EditText(content, Add(s, Accepted)), name);
    RemoveEffect(base, svcs, content, name);
    assert !Has(rest, s.name) by {
      WithoutFacts(svcs, name) by {
        assert Distinct(svcs) by { ManagesDistinct(base, svcs); }
      }
    }
    AddEffect(base, rest, EditText(content, Remove(name, Accepted)), s);
    assert Render(base, rest + [s]) != [] by { RenderLength(base, rest + [s]); }
    JoinUnlines(Render(base, rest + [s]));
  }

  lemma ManagesDistinct(base: seq<string>, svcs: seq<Service>)
    requires Manages(base, svcs)
    ensures Distinct(svcs)
  {
  }

  lemma IndexOfAppend(svcs: seq<Service>, s: Service, name: string)
    requires Has(svcs, name)
    ensures IndexOf(svcs + [s], name) == IndexOf(svcs, name)
  {
    var k := IndexOf(svcs, name);
    assert forall i :: 0 <= i <= k ==> (svcs + [s])[i] == svcs[i];
  }

  // ---- rejected edits ----

  function VerdictOf(e: Edit): Verdict {
    match e
    case Add(_, verdict) => verdict
    case Remove(_, verdict) => verdict
  }

  function NotRejected(edits: seq<Edit>): seq<Edit> {
    if edits == [] then []
    else (if VerdictOf(edits[0]).Rejected? then [] else [edits[0]]) + NotRejected(edits[1..])
  }

  /** On any text, a run of edits has the effect of those that HAProxy did not reject: each rejected one is
      rolled back without a trace. */
  lemma {:induction false} RejectedVanish(content: string, edits: seq<Edit>)
    ensures EditAll(content, edits) == EditAll(content, NotRejected(edits))
    decreases |edits|
  {
    if edits != [] {
      hide EditText;
      var e, rest := edits[0], NotRejected(edits[1..]);
      RejectedVanish(EditText(content, e), edits[1..]);
      if VerdictOf(e).Rejected? {
        RolledBack(content, e);
        assert [] + rest == rest;
      } else {
        assert ([e] + rest)[0] == e && ([e] + rest)[1..] == rest;
      }
    }
  }

  lemma RolledBack(content: string, e: Edit)
    requires VerdictOf(e).Rejected?
    ensures EditText(content, e) == content
  {
  }
}
