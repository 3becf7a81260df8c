/** What the editor's tests say about each single line that it writes. */
module ConfigLines {
  import opened Text
  import opened Config

  // ---- names, domains and base texts ----

  /** A service name is a word: not empty, and without white space. */
  predicate OkName(name: string) {
    name != "" && forall i :: 0 <= i < |name| ==> !IsWhitespace(name[i])
  }

  predicate OkDomain(domain: string) {
    NoNewline(domain) && Lacks(domain, '\r')
  }

  predicate OkService(s: Service) {
    OkName(s.name) && OkDomain(s.domain)
  }

  /** A line that the editor would not attribute to the service. */
  predicate Untraced(line: string, name: string) {
    !IsRuleOf(line, name) && !IsHeaderOf(line, name)
  }

  predicate AllUntraced(lines: seq<string>, name: string) {
    forall i :: 0 <= i < |lines| ==> Untraced(lines[i], name)
  }

  predicate Fresh(lines: seq<string>, name: string) {
    !MarkedIn(lines, name) && AllUntraced(lines, name)
  }

  // ---- the single lines the editor writes ----

  lemma IndentedFacts(t: string)
    requires t != "" && !IsWhitespace(t[0])
    ensures !IsHeader("    " + t)
    ensures Trim("    " + t) == Trim(t) && Trim(t) != "" && Trim(t)[0] == t[0]
  {
    assert " " <= "    " + t;
    TrimIndent(t);
  }

  lemma IsRuleOfIndented(t: string, name: string)
    ensures IsRuleOf("    " + t, name) <==> AclMarker(name) <= t || UseMarker(name) <= t
  {
    PrefixCancel("    ", AclMarker(name), t);
    PrefixCancel("    ", UseMarker(name), t);
  }

  /** Whatever follows the marker of one service, it is not the marker of another. */
  lemma AclMarkerUnique(name: string, other: string, rest: string)
    requires OkName(name) && OkName(other)
    ensures AclMarker(other) <= AclMarker(name) + rest <==> name == other
  {
    assert AclMarker(name) + rest == "acl host_" + (name + " " + rest);
    PrefixCancel("acl host_", other + " ", name + " " + rest);
    WordPrefix(name, other, rest);
  }

  lemma UseMarkerUnique(name: string, other: string, rest: string)
    requires OkName(name) && OkName(other)
    ensures UseMarker(other) <= UseMarker(name) + rest <==> name == other
  {
    assert UseMarker(name) + rest == "use_backend " + (name + " " + rest);
    PrefixCancel("use_backend ", other + " ", name + " " + rest);
    WordPrefix(name, other, rest);
  }

  lemma HostPhrase(marker: string, rest: string)
    ensures marker + ("hdr(host) -i " + rest) == (marker + "hdr(host") + [')'] + (" -i " + rest)
    ensures (marker + "hdr(host") + [')'] + rest == marker + ("hdr(host)" + rest)
  {
    assert "hdr(host) -i " == "hdr(host" + [')'] + " -i ";
    assert "hdr(host)" == "hdr(host" + [')'];
  }

  lemma AclTrim(name: string, domain: string) returns (kept: string)
    ensures Trim(AclLine(name, domain)) == AclMarker(name) + kept
    ensures !IsHeader(AclLine(name, domain))
  {
    var marker, tail := AclMarker(name), " -i " + domain;
    IndentedFacts(marker + ("hdr(host) -i " + domain));
    TrimIndent(marker + ("hdr(host) -i " + domain));
    hide Trim, TrimEnd, AclMarker;
    HostPhrase(marker, domain);
    HostPhrase(marker, TrimEnd(tail));
    TrimEndKeeps(marker + "hdr(host", ')', tail);
    kept := "hdr(host)" + TrimEnd(tail);
  }

  lemma AclLineFacts(name: string, domain: string, other: string)
    requires OkName(name) && OkName(other)
    ensures var l := AclLine(name, domain);
            && !IsHeader(l) && !IsAnchor(l)
            && (IsMarked(l, other) <==> name == other)
            && (IsRuleOf(l, other) <==> name == other)
            && Trim(l) != "" && Trim(l)[0] == 'a'
  {
    var rest := "hdr(host) -i " + domain;
    IsRuleOfIndented(AclMarker(name) + rest, other);
    AclMarkerUnique(name, other, rest);
    var kept := AclTrim(name, domain);
    AclMarkerUnique(name, other, kept);
    assert AclMarker(name)[0] == 'a' && UseMarker(other)[0] == 'u';
    assert "default_backend"[0] == 'd' && "use_backend"[0] == 'u';
  }

  lemma AclLineClean(name: string, domain: string)
    requires OkName(name) && OkDomain(domain)
    ensures Clean(AclLine(name, domain))
  {
    var p := "    " + AclMarker(name) + "hdr(host) -i ";
    assert AclLine(name, domain) == p + domain;
    assert NoNewline(p);
  }

  lemma UseLineFacts(name: string, other: string)
    requires OkName(name) && OkName(other)
    ensures var l := UseLine(name);
            && Clean(l) && !IsHeader(l) && IsAnchor(l)
            && !IsMarked(l, other)
            && (IsRuleOf(l, other) <==> name == other)
            && Trim(l) == UseMarker(name) + ("if host_" + name)
  {
    var rest := "if host_" + name;
    var t := UseMarker(name) + rest;
    IndentedFacts(t);
    IsRuleOfIndented(t, other);
    UseMarkerUnique(name, other, rest);
    TrimNothing(t);
    assert "use_backend" <= t;
    assert AclMarker(other)[0] == 'a' && t[0] == 'u';
  }

  /** A line the editor passes over, whatever service it looks for. */
  predicate Plain(line: string, other: string) {
    && Clean(line) && !IsHeader(line) && !IsAnchor(line)
    && !IsMarked(line, other) && !IsRuleOf(line, other) && !StartsWith(Trim(line), "backend svc_")
  }

  lemma PlainLine(t: string, other: string)
    requires |t| > 2 && !IsWhitespace(t[0]) && !IsWhitespace(t[|t| - 1]) && Clean(t)
    requires t[0] != 'a' && t[0] != 'u' && t[0] != 'd' && t[2] != 'c'
    ensures Plain("    " + t, other)
  {
    IndentedFacts(t);
    IsRuleOfIndented(t, other);
    TrimNothing(t);
    assert AclMarker(other)[0] == 'a' && UseMarker(other)[0] == 'u';
    assert "default_backend"[0] == 'd' && "use_backend"[0] == 'u' && "backend svc_"[2] == 'c';
  }

  lemma PlainPhrase(a: string, b: string, other: string)
    requires |a| > 2 && !IsWhitespace(a[0]) && NoNewline(a)
    requires b != "" && !IsWhitespace(b[|b| - 1]) && Clean(b)
    requires a[0] != 'a' && a[0] != 'u' && a[0] != 'd' && a[2] != 'c'
    ensures Plain("    " + (a + b), other)
  {
    PlainLine(a + b, other);
  }

  lemma BlankPlain(other: string)
    ensures Plain("", other)
  {
    assert Trim("") == "";
  }

  lemma BalancePlain(other: string)
    ensures Plain("    " + "balance leastconn", other)
  {
    PlainLine("balance leastconn", other);
  }

  lemma ClosePlain(other: string)
    ensures Plain("    " + "option http-server-close", other)
  {
    PlainLine("option http-server-close", other);
  }

  lemma CheckPlain(other: string)
    ensures Plain("    " + "option httpchk GET /", other)
  {
    PlainLine("option httpchk GET /", other);
  }

  lemma ExpectPlain(other: string)
    ensures Plain("    " + ("http-check expect " + "rstatus 2[0-9][0-9]"), other)
  {
    PlainPhrase("http-check expect ", "rstatus 2[0-9][0-9]", other);
  }

  lemma ServedByPlain(other: string)
    ensures Plain("    " + ("http-response set-header " + "X-Served-By %[srv_name]"), other)
  {
    PlainPhrase("http-response set-header ", "X-Served-By %[srv_name]", other);
  }

  lemma BlockPlain(name: string, other: string)
    ensures forall i :: 1 <= i < 6 ==> Plain(BlockLines(name)[i], other)
  {
    hide Plain;
    BalancePlain(other);
    ClosePlain(other);
    CheckPlain(other);
    ExpectPlain(other);
    ServedByPlain(other);
  }

  lemma HeaderFacts(name: string, other: string)
    requires OkName(name)
    ensures var l := BackendHeader(name);
            && Clean(l) && IsHeader(l) && !IsAnchor(l)
            && !IsMarked(l, other) && !IsRuleOf(l, other)
            && Trim(l) == l && (l == BackendHeader(other) <==> name == other)
            && (StartsWith(l, "backend svc_") <==> StartsWith(name, "svc_"))
  {
    var l := BackendHeader(name);
    TrimNothing(l);
    PrefixCancel("backend ", "svc_", name);
    assert "backend svc_" == "backend " + "svc_";
    PrefixCancel("backend ", name, other);
    PrefixCancel("backend ", other, name);
    assert l[0] == 'b';
    assert AclMarker(other)[0] == 'a' && UseMarker(other)[0] == 'u';
    assert ("    " + AclMarker(other))[0] == ' ' && ("    " + UseMarker(other))[0] == ' ';
  }
}
