/** What a config file means to the editor: a base text plus an ordered collection of services.
    Every run of adds and removes keeps the file equal to the rendering of that collection. */
module ConfigRuns {
  import opened Text
  import opened Config
  import opened ConfigLines

  // ---- the text of a collection of services ----

  /** Rules in order of addition. */
  function Acls(svcs: seq<Service>): (r: seq<string>) {
    seq(|svcs|, i requires 0 <= i < |svcs| => AclLine(svcs[i].name, svcs[i].domain))
  }

  /** Routing lines in reverse order of addition. */
  function Uses(svcs: seq<Service>): (r: seq<string>) {
    seq(|svcs|, i requires 0 <= i < |svcs| => UseLine(svcs[|svcs| - 1 - i].name))
  }

  /** Backend sections in order of addition, each after a blank line. */
  function Blocks(svcs: seq<Service>): seq<string> {
    if svcs == [] then [] else [""] + BlockLines(svcs[0].name) + Blocks(svcs[1..])
  }

  /** The lines of a base config with a collection of services added to it. */
  function Render(base: seq<string>, svcs: seq<Service>): seq<string> {
    var i := Position(base);
    base[..i] + Acls(svcs) + Uses(svcs) + base[i..] + Blocks(svcs)
  }

  function IndexOf(svcs: seq<Service>, name: string): (i: nat)
    ensures i <= |svcs|
    ensures forall k :: 0 <= k < i ==> svcs[k].name != name
    ensures i < |svcs| ==> svcs[i].name == name
  {
    if svcs == [] || svcs[0].name == name then 0 else 1 + IndexOf(svcs[1..], name)
  }

  predicate Has(svcs: seq<Service>, name: string) {
    IndexOf(svcs, name) < |svcs|
  }

  function Without(svcs: seq<Service>, name: string): seq<Service> {
    var i := IndexOf(svcs, name);
    if i < |svcs| then svcs[..i] + svcs[i + 1..] else svcs
  }

  predicate Distinct(svcs: seq<Service>) {
    forall i, j :: 0 <= i < j < |svcs| ==> svcs[i].name != svcs[j].name
  }

  /** Well-formed, distinct services that the base text does not mention. */
  predicate Manages(base: seq<string>, svcs: seq<Service>) {
    && Distinct(svcs)
    && forall i :: 0 <= i < |svcs| ==> OkService(svcs[i]) && Fresh(base, svcs[i].name)
  }

  predicate OkBase(base: seq<string>) {
    AllClean(base) && HasAnchor(base)
  }

  // ---- appending ----

  lemma {:induction false} BlocksAppend(a: seq<Service>, b: seq<Service>)
    ensures Blocks(a + b) == Blocks(a) + Blocks(b)
  {
    if a == [] {
      assert a + b == b;
    } else {
      assert (a + b)[0] == a[0] && (a + b)[1..] == a[1..] + b;
      BlocksAppend(a[1..], b);
    }
  }

  lemma BlocksOne(s: Service)
    ensures Blocks([s]) == [""] + BlockLines(s.name)
  {
    assert [s][1..] == [];
  }

  lemma AclsAppend(a: seq<Service>, b: seq<Service>)
    ensures Acls(a + b) == Acls(a) + Acls(b)
    ensures Uses(a + b) == Uses(b) + Uses(a)
  {
  }

  lemma MarkedAppend(a: seq<string>, b: seq<string>, name: string)
    ensures MarkedIn(a + b, name) <==> MarkedIn(a, name) || MarkedIn(b, name)
  {
    forall i | 0 <= i < |a| && IsMarked(a[i], name) ensures MarkedIn(a + b, name) {
      assert (a + b)[i] == a[i];
    }
    forall i | 0 <= i < |b| && IsMarked(b[i], name) ensures MarkedIn(a + b, name) {
      assert (a + b)[|a| + i] == b[i];
    }
  }

  lemma {:induction false} KeepAppend(a: seq<string>, b: seq<string>, flag: bool, name: string)
    ensures Keep(a + b, flag, name) == Keep(a, flag, name) + Keep(b, Flag(a, flag, name), name)
    ensures Flag(a + b, flag, name) == Flag(b, Flag(a, flag, name), name)
  {
    if a == [] {
      assert a + b == b;
    } else {
      hide Drops, FlagAfterLine;
      var flag' := FlagAfterLine(a[0], flag, name);
      var kept := if Drops(a[0], flag, name) then [] else [a[0]];
      AppendHead(a, b);
      KeepAppend(a[1..], b, flag', name);
      Assoc(kept, Keep(a[1..], flag', name), Keep(b, Flag(a, flag, name), name));
    }
  }

  lemma {:induction false} KeepUntraced(a: seq<string>, name: string)
    requires AllUntraced(a, name)
    ensures Keep(a, false, name) == a && !Flag(a, false, name)
  {
    if a != [] {
      KeepUntraced(a[1..], name);
    }
  }

  /** Inside the section being removed nothing survives until the next header. */
  lemma {:induction false} KeepSection(a: seq<string>, name: string)
    requires forall i :: 0 <= i < |a| ==> !IsHeader(a[i])
    ensures Keep(a, true, name) == [] && Flag(a, true, name)
  {
    if a != [] {
      KeepSection(a[1..], name);
    }
  }

  // ---- what the rendered lines look like to the editor ----

  lemma AclsFacts(svcs: seq<Service>, other: string)
    requires OkName(other)
    requires forall i :: 0 <= i < |svcs| ==> OkService(svcs[i])
    ensures AllClean(Acls(svcs))
    ensures forall i :: 0 <= i < |svcs| ==>
      var l := Acls(svcs)[i];
      && !IsHeader(l) && !IsAnchor(l)
      && (IsMarked(l, other) <==> svcs[i].name == other)
      && (IsRuleOf(l, other) <==> svcs[i].name == other)
  {
    hide IsHeader, IsAnchor, IsMarked, IsRuleOf, Clean, AclLine;
    forall i | 0 <= i < |svcs|
      ensures var l := Acls(svcs)[i];
              && Clean(l) && !IsHeader(l) && !IsAnchor(l)
              && (IsMarked(l, other) <==> svcs[i].name == other)
              && (IsRuleOf(l, other) <==> svcs[i].name == other)
    {
      AclLineFacts(svcs[i].name, svcs[i].domain, other);
      AclLineClean(svcs[i].name, svcs[i].domain);
    }
  }

  lemma UsesFacts(svcs: seq<Service>, other: string)
    requires OkName(other)
    requires forall i :: 0 <= i < |svcs| ==> OkService(svcs[i])
    ensures AllClean(Uses(svcs))
    ensures forall i :: 0 <= i < |svcs| ==>
      var l := Uses(svcs)[i];
      && !IsHeader(l) && IsAnchor(l) && !IsMarked(l, other)
      && (IsRuleOf(l, other) <==> svcs[|svcs| - 1 - i].name == other)
  {
    hide IsHeader, IsAnchor, IsMarked, IsRuleOf, Clean, UseLine;
    forall i | 0 <= i < |svcs|
      ensures var l := Uses(svcs)[i];
              && Clean(l) && !IsHeader(l) && IsAnchor(l) && !IsMarked(l, other)
              && (IsRuleOf(l, other) <==> svcs[|svcs| - 1 - i].name == other)
    {
      UseLineFacts(svcs[|svcs| - 1 - i].name, other);
    }
  }

  /** A line of a rendered backend section. */
  predicate BlockLine(l: string, other: string) {
    Clean(l) && !IsAnchor(l) && !IsMarked(l, other) && !IsRuleOf(l, other)
  }

  lemma BlockFacts(name: string, other: string)
    requires OkName(name)
    ensures forall i :: 0 <= i < 6 ==> BlockLine(BlockLines(name)[i], other)
    ensures forall i :: 1 <= i < 6 ==> !IsHeader(BlockLines(name)[i])
    ensures IsHeaderOf(BlockLines(name)[0], other) <==> name == other
    ensures IsHeader(BlockLines(name)[0])
  {
    BlockPlain(name, other);
    HeaderFacts(name, other);
  }

  lemma OneBlockFacts(name: string, other: string)
    requires OkName(name) && OkName(other)
    ensures var block := [""] + BlockLines(name);
            && |block| == 7 && block[0] == "" && block[6] != ""
            && (forall j :: 0 <= j < 7 ==> BlockLine(block[j], other))
            && (name != other ==> AllUntraced(block, other))
  {
    BlankPlain(other);
    BlockFacts(name, other);
    var block := [""] + BlockLines(name);
    assert block[6] == BlockLines(name)[5];
    hide IsAnchor, IsMarked, IsRuleOf, Clean, Trim, IsHeader;
    forall j | 0 <= j < 7 ensures BlockLine(block[j], other) && (name != other ==> Untraced(block[j], other)) {
      if j > 0 {
        assert block[j] == BlockLines(name)[j - 1];
      }
    }
  }

  lemma {:induction false} BlocksFacts(svcs: seq<Service>, other: string)
    requires OkName(other)
    requires forall i :: 0 <= i < |svcs| ==> OkService(svcs[i])
    ensures forall j :: 0 <= j < |Blocks(svcs)| ==> BlockLine(Blocks(svcs)[j], other)
    ensures (forall i :: 0 <= i < |svcs| ==> svcs[i].name != other) ==> AllUntraced(Blocks(svcs), other)
    ensures svcs != [] ==> Blocks(svcs) != [] && Blocks(svcs)[0] == "" && Blocks(svcs)[|Blocks(svcs)| - 1] != ""
  {
    if svcs != [] {
      var block, rest := [""] + BlockLines(svcs[0].name), svcs[1..];
      OneBlockFacts(svcs[0].name, other);
      BlocksFacts(rest, other);
      assert Blocks(svcs) == block + Blocks(rest);
      hide BlockLine, Untraced, BlockLines, Blocks, OkService;
    }
  }
}
