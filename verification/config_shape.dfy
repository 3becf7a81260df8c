/** Where each service appears in a rendered config, and what the listing reads from it. */
module ConfigShape {
  import opened Text
  import opened Config
  import opened ConfigLines
  import opened ConfigRuns
  import opened ConfigEdits

  // ---- the three places of a service ----

  function AclAt(base: seq<string>, svcs: seq<Service>, x: nat): nat {
    Position(base) + x
  }

  function UseAt(base: seq<string>, svcs: seq<Service>, x: nat): nat
    requires x < |svcs|
  {
    Position(base) + 2 * |svcs| - 1 - x
  }

  function HeaderAt(base: seq<string>, svcs: seq<Service>, x: nat): nat {
    |base| + 2 * |svcs| + 7 * x + 1
  }

  lemma BlockLength(name: string)
    ensures |BlockLines(name)| == 6
  {
  }

  lemma {:induction false} BlocksAt(svcs: seq<Service>, j: nat)
    requires j < |Blocks(svcs)|
    ensures |Blocks(svcs)| == 7 * |svcs| && j / 7 < |svcs|
    ensures Blocks(svcs)[j] == ([""] + BlockLines(svcs[j / 7].name))[j % 7]
  {
    var name, rest := svcs[0].name, svcs[1..];
    BlockLength(name);
    hide BlockLines;
    var block := [""] + BlockLines(name);
    assert Blocks(svcs) == block + Blocks(rest) && |block| == 7;
    if Blocks(rest) == [] {
      assert rest == [];
    } else if j < 7 {
      BlocksAt(rest, 0);
    } else {
      BlocksAt(rest, j - 7);
      assert j / 7 == (j - 7) / 7 + 1 && j % 7 == (j - 7) % 7;
      assert svcs[j / 7] == rest[(j - 7) / 7];
    }
  }

  /** The rules of a service are exactly two lines of the text, its rule and, later, its routing line. */
  lemma RulesExactly(base: seq<string>, svcs: seq<Service>, x: nat, i: nat)
    requires OkBase(base) && Manages(base, svcs) && x < |svcs| && i < |Render(base, svcs)|
    ensures AclAt(base, svcs, x) < UseAt(base, svcs, x) < |Render(base, svcs)|
    ensures IsMarked(Render(base, svcs)[i], svcs[x].name) <==> i == AclAt(base, svcs, x)
    ensures IsRuleOf(Render(base, svcs)[i], svcs[x].name) <==> i == AclAt(base, svcs, x) || i == UseAt(base, svcs, x)
  {
    hide Clean, IsHeader, IsAnchor, IsMarked, IsRuleOf, OkDomain, OkName, Blocks;
    var name, p, n := svcs[x].name, Position(base), |svcs|;
    assert OkService(svcs[x]) && Fresh(base, name);
    AclsFacts(svcs, name);
    UsesFacts(svcs, name);
    BlocksFacts(svcs, name);
    var r := Render(base, svcs);
    if i < p {
      assert r[i] == base[i];
    } else if i < p + n {
      assert r[i] == Acls(svcs)[i - p];
    } else if i < p + 2 * n {
      assert r[i] == Uses(svcs)[i - p - n];
    } else if i < |base| + 2 * n {
      assert r[i] == base[i - 2 * n];
    } else {
      assert r[i] == Blocks(svcs)[i - |base| - 2 * n];
    }
  }

  /** One backend header per service, in order of addition and after every rule. */
  lemma HeaderExactly(base: seq<string>, svcs: seq<Service>, x: nat, i: nat)
    requires OkBase(base) && Manages(base, svcs) && x < |svcs| && i < |Render(base, svcs)|
    ensures UseAt(base, svcs, x) < HeaderAt(base, svcs, x) < |Render(base, svcs)|
    ensures IsHeaderOf(Render(base, svcs)[i], svcs[x].name) <==> i == HeaderAt(base, svcs, x)
  {
    hide Clean, IsHeader, IsAnchor, IsMarked, IsRuleOf, OkDomain, OkName, Blocks, BlockLines;
    var name, p, n := svcs[x].name, Position(base), |svcs|;
    assert OkService(svcs[x]) && Fresh(base, name);
    AclsFacts(svcs, name);
    UsesFacts(svcs, name);
    BlocksFacts(svcs, name);
    BlocksAt(svcs, 0);
    var r := Render(base, svcs);
    if i < p {
      assert r[i] == base[i];
    } else if i < p + n {
      assert r[i] == Acls(svcs)[i - p];
    } else if i < p + 2 * n {
      assert r[i] == Uses(svcs)[i - p - n];
    } else if i < |base| + 2 * n {
      assert r[i] == base[i - 2 * n];
    } else {
      var j := i - |base| - 2 * n;
      assert r[i] == Blocks(svcs)[j];
      BlocksAt(svcs, j);
      HeaderInBlock(svcs[j / 7].name, name, j % 7);
      assert OkService(svcs[j / 7]);
      assert svcs[j / 7].name == name <==> j / 7 == x;
      assert j == 7 * (j / 7) + j % 7;
    }
  }

  lemma HeaderInBlock(name: string, other: string, k: nat)
    requires OkName(name) && k < 7
    ensures IsHeaderOf(([""] + BlockLines(name))[k], other) <==> k == 1 && name == other
  {
    BlockFacts(name, other);
    HeaderFacts(name, other);
    BlankPlain(other);
  }

  // ---- the listing ----

  /** The `svc_` names among the services, in order of addition. */
  function SvcNames(svcs: seq<Service>): seq<string> {
    if svcs == [] then []
    else (if StartsWith(svcs[0].name, "svc_") then [svcs[0].name] else []) + SvcNames(svcs[1..])
  }

  lemma ListCons(l: string, rest: seq<string>)
    ensures ListIn([l] + rest) == ListIn([l]) + ListIn(rest)
  {
    hide Trim;
    var all, one := [l] + rest, [l];
    assert all[0] == l && all[1..] == rest && one[1..] == [];
    assert ListIn(one[1..]) == [];
  }

  lemma {:induction false} ListAppend(a: seq<string>, b: seq<string>)
    ensures ListIn(a + b) == ListIn(a) + ListIn(b)
  {
    if a == [] {
      assert a + b == b;
    } else {
      hide ListIn;
      var h, t := a[0], a[1..];
      assert a == [h] + t && a + b == [h] + (t + b);
      ListCons(h, t);
      ListCons(h, t + b);
      ListAppend(t, b);
    }
  }

  lemma {:induction false} ListNothing(a: seq<string>)
    requires forall i :: 0 <= i < |a| ==> !StartsWith(Trim(a[i]), "backend svc_")
    ensures ListIn(a) == []
  {
    if a != [] {
      hide Trim;
      ListNothing(a[1..]);
    }
  }

  lemma RulesUnlisted(s: Service)
    requires OkService(s)
    ensures !StartsWith(Trim(AclLine(s.name, s.domain)), "backend svc_")
    ensures !StartsWith(Trim(UseLine(s.name)), "backend svc_")
  {
    AclLineFacts(s.name, s.domain, "x");
    UseLineFacts(s.name, "x");
    assert "backend svc_"[0] == 'b' && UseMarker(s.name)[0] == 'u';
  }

  lemma ListRules(svcs: seq<Service>)
    requires forall i :: 0 <= i < |svcs| ==> OkService(svcs[i])
    ensures ListIn(Acls(svcs)) == [] && ListIn(Uses(svcs)) == []
  {
    hide Trim, OkService, AclLine, UseLine, StartsWith, ListIn;
    forall i | 0 <= i < |svcs|
      ensures !StartsWith(Trim(Acls(svcs)[i]), "backend svc_") && !StartsWith(Trim(Uses(svcs)[i]), "backend svc_")
    {
      RulesUnlisted(svcs[i]);
      RulesUnlisted(svcs[|svcs| - 1 - i]);
    }
    ListNothing(Acls(svcs));
    ListNothing(Uses(svcs));
  }

  lemma PlainUnlisted(name: string)
    ensures |BlockLines(name)| == 6
    ensures forall i :: 0 <= i < 5 ==> !StartsWith(Trim(BlockLines(name)[1..][i]), "backend svc_")
  {
    BlockPlain(name, "x");
    var b := BlockLines(name);
    forall i | 0 <= i < 5 ensures !StartsWith(Trim(b[1..][i]), "backend svc_") {
      assert Plain(b[i + 1], "x") && b[1..][i] == b[i + 1];
    }
  }

  lemma ListHeader(h: string, name: string)
    requires h == BackendHeader(name) && Trim(h) == h
    requires StartsWith(h, "backend svc_") <==> StartsWith(name, "svc_")
    ensures ListIn([h]) == if StartsWith(name, "svc_") then [name] else []
  {
    var one: seq<string> := [h];
    assert one[1..] == [];
    assert h[|"backend "|..] == name;
  }

  lemma ListBlock(name: string)
    requires OkName(name)
    ensures ListIn([""] + BlockLines(name)) == if StartsWith(name, "svc_") then [name] else []
  {
    BlankPlain("x");
    BlockPlain(name, "x");
    HeaderFacts(name, "x");
    BlockLength(name);
    assert BlockLines(name)[0] == BackendHeader(name);
    assert BackendHeader(name)[|"backend "|..] == name;
    hide BlockLines, Plain, IsHeader, OkName, BackendHeader, ListIn;
    var h, body := BlockLines(name)[0], BlockLines(name)[1..];
    ListNothing([""]) by { assert !StartsWith(Trim(""), "backend svc_"); }
    ListNothing(body) by { PlainUnlisted(name); }
    ListHeader(h, name);
    ListAppend([h], body);
    ListAppend([""], [h] + body);
    assert [""] + BlockLines(name) == [""] + ([h] + body);
  }

  lemma {:induction false} ListBlocks(svcs: seq<Service>)
    requires forall i :: 0 <= i < |svcs| ==> OkService(svcs[i])
    ensures ListIn(Blocks(svcs)) == SvcNames(svcs)
  {
    if svcs != [] {
      hide ListIn, BlockLines;
      ListBlock(svcs[0].name);
      ListBlocks(svcs[1..]);
      ListAppend([""] + BlockLines(svcs[0].name), Blocks(svcs[1..]));
    } else {
      assert Blocks(svcs) == [];
    }
  }

  /** The listing is that of the base text followed by the `svc_` services still present. */
  lemma ListsExactly(base: seq<string>, svcs: seq<Service>)
    requires forall i :: 0 <= i < |svcs| ==> OkService(svcs[i])
    ensures ListIn(Render(base, svcs)) == ListIn(base) + SvcNames(svcs)
  {
    hide ListIn, Acls, Uses, Blocks, OkService;
    var i := Position(base);
    ListRules(svcs);
    ListBlocks(svcs);
    ListAppend(base[..i], base[i..]);
    assert base[..i] + base[i..] == base;
    ListAppend(base[..i], Acls(svcs));
    ListAppend(base[..i] + Acls(svcs), Uses(svcs));
    ListAppend(base[..i] + Acls(svcs) + Uses(svcs), base[i..]);
    ListAppend(base[..i] + Acls(svcs) + Uses(svcs) + base[i..], Blocks(svcs));
  }

  lemma {:induction false} SvcNamesExactly(svcs: seq<Service>, name: string)
    requires StartsWith(name, "svc_")
    ensures name in SvcNames(svcs) <==> Has(svcs, name)
  {
    if svcs != [] {
      SvcNamesExactly(svcs[1..], name);
    }
  }

  /** After any run, listing and existence test agree about every `svc_` name that the base text
      does not mention, although one reads backend headers and the other rules. */
  lemma ListAgreesWithExists(content: string, edits: seq<Edit>, name: string)
    requires OkBase(Lines(content))
    requires forall i :: 0 <= i < |edits| ==> OkEdit(Lines(content), edits[i])
    requires OkName(name) && StartsWith(name, "svc_") && Fresh(Lines(content), name)
    requires name !in ListServices(content)
    ensures var after := EditAll(content, edits);
            && ListServices(after) == ListServices(content) + SvcNames(ApplyAll([], edits))
            && (name in ListServices(after) <==> ServiceExists(after, name))
            && (ServiceExists(after, name) <==> Has(ApplyAll([], edits), name))
  {
    hide Lines, Render, ListIn, Fresh, OkBase, OkEdit, ApplyAll, EditAll, MarkedIn, OkService;
    RunFromBase(content, edits);
    var base, svcs := Lines(content), ApplyAll([], edits);
    ListsExactly(base, svcs);
    MarkedExactly(base, svcs, name);
    SvcNamesExactly(svcs, name);
  }
}
