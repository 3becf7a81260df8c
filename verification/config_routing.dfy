/** What a config routes a request to, and what the editor's changes do to the routing. The routing
    rules are those of HAProxy: the first `use_backend` whose condition holds, else the default. */
module ConfigRouting {
  import opened Text
  import opened Config
  import opened ConfigLines
  import opened ConfigRuns
  import opened ConfigEdits
  import opened ConfigShape

  // ---- words of a line ----

  predicate IsBlank(c: char) {
    c == ' ' || c == '\t'
  }

  function WordEnd(s: string): (i: nat)
    ensures i <= |s|
    ensures forall k :: 0 <= k < i ==> !IsBlank(s[k])
    ensures i < |s| ==> IsBlank(s[i])
  {
    if s == "" || IsBlank(s[0]) then 0 else 1 + WordEnd(s[1..])
  }

  function Words(s: string): seq<string>
    decreases |s|
  {
    if s == "" then []
    else if IsBlank(s[0]) then Words(s[1..])
    else [s[..WordEnd(s)]] + Words(s[WordEnd(s)..])
  }

  // ---- evaluation of a frontend ----

  /** Host patterns by rule name; several lines with one name are alternatives. */
  type Rules = map<string, seq<string>>

  function LowerChar(c: char): char {
    if 'A' <= c <= 'Z' then c + 32 as char else c
  }

  function Lower(s: string): string {
    seq(|s|, i requires 0 <= i < |s| => LowerChar(s[i]))
  }

  predicate Matches(patterns: seq<string>, host: string) {
    exists i :: 0 <= i < |patterns| && Lower(patterns[i]) == Lower(host)
  }

  predicate DefinesRule(ws: seq<string>) {
    |ws| >= 4 && ws[0] == "acl" && ws[2] == "hdr(host)" && ws[3] == "-i"
  }

  function Define(rules: Rules, ws: seq<string>): Rules {
    if DefinesRule(ws) then rules[ws[1] := (if ws[1] in rules then rules[ws[1]] else []) + ws[4..]] else rules
  }

  /** A condition on one host rule is decided here; `other` decides everything else the request has. */
  predicate Holds(cond: seq<string>, rules: Rules, host: string, other: seq<string> -> bool) {
    if cond == [] then true
    else if |cond| == 2 && cond[0] == "if" && cond[1] in rules then Matches(rules[cond[1]], host)
    else other(cond)
  }

  predicate Fires(ws: seq<string>, rules: Rules, host: string, other: seq<string> -> bool) {
    |ws| >= 2 && ws[0] == "use_backend" && Holds(ws[2..], rules, host, other)
  }

  function FirstUse(lines: seq<string>, rules: Rules, host: string, other: seq<string> -> bool): seq<string> {
    if lines == [] then []
    else
      var ws := Words(lines[0]);
      if Fires(ws, rules, host, other) then [ws[1]]
      else FirstUse(lines[1..], Define(rules, ws), host, other)
  }

  function RulesAfter(lines: seq<string>, rules: Rules): Rules {
    if lines == [] then rules else RulesAfter(lines[1..], Define(rules, Words(lines[0])))
  }

  /** The last `default_backend` of the lines. */
  function Default(lines: seq<string>): seq<string> {
    if lines == [] then []
    else
      var rest := Default(lines[1..]);
      var ws := Words(lines[0]);
      if rest != [] then rest
      else if |ws| >= 2 && ws[0] == "default_backend" then [ws[1]] else []
  }

  /** The backend that a frontend sends a request to: none or one. */
  function Route(frontend: seq<string>, host: string, other: seq<string> -> bool): seq<string> {
    var first := FirstUse(frontend, map[], host, other);
    if first != [] then first else Default(frontend)
  }

  // ---- sections ----

  /** The non-empty lines up to the next header. */
  function Body(lines: seq<string>): seq<string> {
    if lines == [] || IsHeader(lines[0]) then []
    else (if lines[0] == "" then [] else [lines[0]]) + Body(lines[1..])
  }

  /** The body of the first section with this header. */
  function Section(lines: seq<string>, header: string): seq<string> {
    if lines == [] then []
    else if IsHeader(lines[0]) && Trim(lines[0]) == header then Body(lines[1..])
    else Section(lines[1..], header)
  }

  predicate NoHeader(lines: seq<string>) {
    forall i :: 0 <= i < |lines| ==> !IsHeader(lines[i])
  }

  /** After these lines, one is inside the first section with this header. */
  predicate Open(lines: seq<string>, header: string) {
    lines != []
    && if IsHeader(lines[0]) && Trim(lines[0]) == header then NoHeader(lines[1..]) else Open(lines[1..], header)
  }

  // ---- the specification ----

  /** The most recently added service whose domain matches the host. */
  function Latest(svcs: seq<Service>, host: string): seq<string> {
    if svcs == [] then []
    else
      var s := svcs[|svcs| - 1];
      if Matches(Words(s.domain), host) then [s.name] else Latest(svcs[..|svcs| - 1], host)
  }

  function RuleName(name: string): string {
    "host_" + name
  }

  /** No line of the base text uses the rule name of the service. */
  predicate RuleUnused(lines: seq<string>, name: string) {
    forall i :: 0 <= i < |lines| ==> RuleName(name) !in Words(lines[i])
  }

  // ---- words of the managed lines ----

  lemma WordsWord(w: string, rest: string)
    requires w != "" && forall i :: 0 <= i < |w| ==> !IsBlank(w[i])
    ensures Words(w + " " + rest) == [w] + Words(rest)
    ensures Words(w) == [w]
  {
    var s := w + " " + rest;
    assert forall k :: 0 <= k < |w| ==> s[k] == w[k];
    assert s[|w|] == ' ';
    assert WordEnd(s) == |w| && s[..|w|] == w && s[|w|..] == " " + rest;
    assert (" " + rest)[1..] == rest;
    assert WordEnd(w) == |w| && w[..|w|] == w && w[|w|..] == "";
  }

  lemma WordsIndent(s: string)
    ensures Words("    " + s) == Words(s)
  {
    assert ("    " + s)[1..] == "   " + s;
    assert ("   " + s)[1..] == "  " + s;
    assert ("  " + s)[1..] == " " + s;
    assert (" " + s)[1..] == s;
    assert Words("    " + s) == Words("   " + s) == Words("  " + s) == Words(" " + s);
  }

  lemma NameWords(name: string)
    requires OkName(name)
    ensures forall i :: 0 <= i < |name| ==> !IsBlank(name[i])
    ensures forall i :: 0 <= i < |"host_" + name| ==> !IsBlank(("host_" + name)[i])
  {
  }

  lemma Regroup(a: string, h: string, name: string, x: string, i: string, domain: string)
    ensures (a + " " + h) + (name + " ") + ((x + " " + i + " ") + domain)
         == a + " " + ((h + name) + " " + (x + " " + (i + " " + domain)))
  {
  }

  lemma AclShape(name: string, domain: string)
    ensures AclLine(name, domain)
         == "    " + ("acl" + " " + (("host_" + name) + " " + ("hdr(host)" + " " + ("-i" + " " + domain))))
  {
    Regroup("acl", "host_", name, "hdr(host)", "-i", domain);
    assert "acl host_" == "acl" + " " + "host_";
    assert "hdr(host) -i " == "hdr(host)" + " " + "-i" + " ";
  }

  predicate IsWord(w: string) {
    w != "" && forall i :: 0 <= i < |w| ==> !IsBlank(w[i])
  }

  lemma FourWords(a: string, b: string, c: string, d: string, rest: string)
    requires IsWord(a) && IsWord(b) && IsWord(c) && IsWord(d)
    ensures Words("    " + (a + " " + (b + " " + (c + " " + (d + " " + rest))))) == [a, b, c, d] + Words(rest)
    ensures Words("    " + (a + " " + (b + " " + (c + " " + d)))) == [a, b, c, d]
  {
    hide Words, IsBlank;
    var t3, u3 := d + " " + rest, d;
    var t2, u2 := c + " " + t3, c + " " + u3;
    var t1, u1 := b + " " + t2, b + " " + u2;
    WordsWord(d, rest);
    WordsWord(c, t3); WordsWord(c, u3);
    WordsWord(b, t2); WordsWord(b, u2);
    WordsWord(a, t1); WordsWord(a, u1);
    WordsIndent(a + " " + t1); WordsIndent(a + " " + u1);
  }

  lemma AclWords(name: string, domain: string)
    requires OkName(name)
    ensures Words(AclLine(name, domain)) == ["acl", "host_" + name, "hdr(host)", "-i"] + Words(domain)
  {
    NameWords(name);
    AclShape(name, domain);
    hide Words, IsWhitespace, AclLine;
    FourWords("acl", "host_" + name, "hdr(host)", "-i", domain);
  }

  lemma UseWords(name: string)
    requires OkName(name)
    ensures Words(UseLine(name)) == ["use_backend", name, "if", "host_" + name]
  {
    NameWords(name);
    assert UseLine(name) == "    " + ("use_backend" + " " + (name + " " + ("if" + " " + ("host_" + name)))) by {
      hide IsWhitespace;
      assert "use_backend " == "use_backend" + " " && "if host_" == "if" + (" " + "host_");
    }
    hide Words, IsWhitespace, UseLine;
    FourWords("use_backend", name, "if", "host_" + name, "");
  }

  /** A line whose first word is `use_backend` is a routing line to the editor as well. */
  lemma {:induction false} UseIsAnchor(line: string)
    requires Words(line) != [] && Words(line)[0] == "use_backend"
    ensures IsAnchor(line)
    decreases |line|
  {
    if IsBlank(line[0]) {
      UseIsAnchor(line[1..]);
      assert TrimStart(line) == TrimStart(line[1..]);
    } else {
      var n := WordEnd(line);
      var u := "use_backend";
      assert line[..n] == u && n == 11;
      assert line[0] == u[0] == 'u';
      assert TrimStart(line) == line;
      assert line == "use_backen" + ['d'] + line[11..];
      TrimEndKeeps("use_backen", 'd', line[11..]);
    }
  }

  // ---- evaluation is compositional ----

  lemma {:induction false} FirstUseAppend(a: seq<string>, b: seq<string>, rules: Rules, host: string, other: seq<string> -> bool)
    ensures FirstUse(a + b, rules, host, other)
      == if FirstUse(a, rules, host, other) != [] then FirstUse(a, rules, host, other)
         else FirstUse(b, RulesAfter(a, rules), host, other)
    ensures RulesAfter(a + b, rules) == RulesAfter(b, RulesAfter(a, rules))
  {
    if a == [] {
      assert a + b == b;
    } else {
      hide Words, Fires, Define;
      assert (a + b)[0] == a[0] && (a + b)[1..] == a[1..] + b;
      FirstUseAppend(a[1..], b, Define(rules, Words(a[0])), host, other);
    }
  }

  lemma {:induction false} DefaultAppend(a: seq<string>, b: seq<string>)
    ensures Default(a + b) == if Default(b) != [] then Default(b) else Default(a)
  {
    if a == [] {
      assert a + b == b;
    } else {
      hide Words;
      assert (a + b)[0] == a[0] && (a + b)[1..] == a[1..] + b;
      DefaultAppend(a[1..], b);
    }
  }

  lemma {:induction false} NoUse(a: seq<string>, rules: Rules, host: string, other: seq<string> -> bool)
    requires forall i :: 0 <= i < |a| ==> !IsAnchor(a[i])
    ensures FirstUse(a, rules, host, other) == []
  {
    if a != [] {
      if Words(a[0]) != [] && Words(a[0])[0] == "use_backend" {
        UseIsAnchor(a[0]);
      }
      NoUse(a[1..], Define(rules, Words(a[0])), host, other);
    }
  }

  /** Only the words of the lines can become rule names. */
  lemma {:induction false} RulesFromWords(a: seq<string>, rules: Rules, key: string)
    requires forall i :: 0 <= i < |a| ==> key !in Words(a[i])
    ensures key in RulesAfter(a, rules) <==> key in rules
    ensures key in rules ==> RulesAfter(a, rules)[key] == rules[key]
  {
    if a != [] {
      hide Words;
      RulesFromWords(a[1..], Define(rules, Words(a[0])), key);
    }
  }

  /** Rules that no line mentions do not matter. */
  lemma {:induction false} UnusedRules(a: seq<string>, rules: Rules, more: Rules, keys: set<string>, host: string,
                                       other: seq<string> -> bool)
    requires forall i, k :: 0 <= i < |a| && k in keys ==> k !in Words(a[i])
    requires forall k :: k !in keys ==> (k in rules <==> k in more) && (k in rules ==> rules[k] == more[k])
    ensures FirstUse(a, rules, host, other) == FirstUse(a, more, host, other)
  {
    if a != [] {
      hide Words;
      var ws := Words(a[0]);
      if |ws| == 4 {
        assert ws[2..][1] == ws[3] && ws[3] in ws;
      }
      assert Fires(ws, rules, host, other) == Fires(ws, more, host, other);
      UnusedRules(a[1..], Define(rules, ws), Define(more, ws), keys, host, other);
    }
  }

  // ---- the managed rules ----

  predicate Defined(rules: Rules, svcs: seq<Service>) {
    forall i :: 0 <= i < |svcs| ==>
      RuleName(svcs[i].name) in rules && rules[RuleName(svcs[i].name)] == Words(svcs[i].domain)
  }

  function HostNames(svcs: seq<Service>): set<string> {
    set i | 0 <= i < |svcs| :: RuleName(svcs[i].name)
  }

  /** Two rule tables that differ at most on the given names. */
  predicate AgreeOutside(rules: Rules, more: Rules, keys: set<string>) {
    && (forall k :: k in rules && k !in keys ==> k in more && more[k] == rules[k])
    && (forall k :: k in more && k !in keys ==> k in rules)
  }

  lemma DefinesAcl(rules: Rules, s: Service)
    requires OkName(s.name) && RuleName(s.name) !in rules
    ensures Define(rules, Words(AclLine(s.name, s.domain))) == rules[RuleName(s.name) := Words(s.domain)]
    ensures Words(AclLine(s.name, s.domain)) != [] && Words(AclLine(s.name, s.domain))[0] == "acl"
  {
    AclWords(s.name, s.domain);
    var ws := Words(AclLine(s.name, s.domain));
    assert ws[1] == RuleName(s.name) && [] + ws[4..] == Words(s.domain);
  }

  lemma DistinctRuleNames(svcs: seq<Service>, rules: Rules, patterns: seq<string>)
    requires svcs != [] && Distinct(svcs)
    requires forall i :: 0 <= i < |svcs| ==> RuleName(svcs[i].name) !in rules
    ensures var next := rules[RuleName(svcs[0].name) := patterns];
            forall i :: 0 <= i < |svcs[1..]| ==> RuleName(svcs[1..][i].name) !in next
  {
    forall i | 0 <= i < |svcs[1..]| ensures RuleName(svcs[1..][i].name) != RuleName(svcs[0].name) {
      assert svcs[1..][i] == svcs[i + 1];
      PrefixCancel("host_", svcs[i + 1].name, svcs[0].name);
      PrefixCancel("host_", svcs[0].name, svcs[i + 1].name);
    }
  }

  lemma AclFirst(svcs: seq<Service>, rules: Rules, host: string, other: seq<string> -> bool)
    requires svcs != [] && OkName(svcs[0].name) && RuleName(svcs[0].name) !in rules
    ensures var next := rules[RuleName(svcs[0].name) := Words(svcs[0].domain)];
            && RulesAfter(Acls(svcs), rules) == RulesAfter(Acls(svcs[1..]), next)
            && FirstUse(Acls(svcs), rules, host, other) == FirstUse(Acls(svcs[1..]), next, host, other)
            && (Default(Acls(svcs[1..])) == [] ==> Default(Acls(svcs)) == [])
  {
    DefinesAcl(rules, svcs[0]);
    hide Words, OkName, AclLine;
    assert Acls(svcs)[0] == AclLine(svcs[0].name, svcs[0].domain) && Acls(svcs)[1..] == Acls(svcs[1..]);
  }

  lemma DefinedStep(svcs: seq<Service>, rules: Rules, after: Rules)
    requires svcs != []
    requires var next := rules[RuleName(svcs[0].name) := Words(svcs[0].domain)];
             && AgreeOutside(next, after, HostNames(svcs[1..])) && Defined(after, svcs[1..])
             && forall i :: 0 <= i < |svcs[1..]| ==> RuleName(svcs[1..][i].name) !in next
    ensures Defined(after, svcs) && AgreeOutside(rules, after, HostNames(svcs))
  {
    hide Words, RuleName;
    var key := RuleName(svcs[0].name);
    assert key !in HostNames(svcs[1..]);
    assert key in after && after[key] == Words(svcs[0].domain);
    assert svcs == [svcs[0]] + svcs[1..];
    assert HostNames(svcs) == HostNames(svcs[1..]) + {key};
  }

  /** Scanning the managed rules defines one host rule per service and routes nothing. */
  lemma {:induction false} AclsDefine(svcs: seq<Service>, rules: Rules, host: string, other: seq<string> -> bool)
    requires Distinct(svcs) && forall i :: 0 <= i < |svcs| ==> OkName(svcs[i].name)
    requires forall i :: 0 <= i < |svcs| ==> RuleName(svcs[i].name) !in rules
    ensures Defined(RulesAfter(Acls(svcs), rules), svcs)
    ensures AgreeOutside(rules, RulesAfter(Acls(svcs), rules), HostNames(svcs))
    ensures FirstUse(Acls(svcs), rules, host, other) == [] && Default(Acls(svcs)) == []
    decreases |svcs|
  {
    if svcs != [] {
      var s, rest := svcs[0], svcs[1..];
      var next := rules[RuleName(s.name) := Words(s.domain)];
      hide Words, OkName, AclLine, Acls, RulesAfter, FirstUse, Default, RuleName;
      DistinctRuleNames(svcs, rules, Words(s.domain));
      AclFirst(svcs, rules, host, other);
      AclsDefine(rest, next, host, other);
      DefinedStep(svcs, rules, RulesAfter(Acls(svcs), rules));
    } else {
      assert Acls(svcs) == [];
    }
  }

  lemma UseFires(s: Service, rules: Rules, host: string, other: seq<string> -> bool)
    requires OkName(s.name) && RuleName(s.name) in rules && rules[RuleName(s.name)] == Words(s.domain)
    ensures var ws := Words(UseLine(s.name));
            && (Fires(ws, rules, host, other) <==> Matches(Words(s.domain), host))
            && |ws| == 4 && ws[1] == s.name && Define(rules, ws) == rules && ws[0] == "use_backend"
  {
    UseWords(s.name);
    var ws := Words(UseLine(s.name));
    assert ws[2..] == ["if", RuleName(s.name)];
  }

  /** The reversed routing lines pick the most recent service whose domain matches. */
  lemma {:induction false} UsesPickLatest(svcs: seq<Service>, rules: Rules, host: string, other: seq<string> -> bool)
    requires Defined(rules, svcs) && forall i :: 0 <= i < |svcs| ==> OkName(svcs[i].name)
    ensures FirstUse(Uses(svcs), rules, host, other) == Latest(svcs, host)
    ensures RulesAfter(Uses(svcs), rules) == rules && Default(Uses(svcs)) == []
    decreases |svcs|
  {
    if svcs != [] {
      var n := |svcs| - 1;
      var s, rest := svcs[n], svcs[..n];
      UseFires(s, rules, host, other);
      assert Uses(svcs)[0] == UseLine(s.name) && Uses(svcs)[1..] == Uses(rest);
      assert Defined(rules, rest);
      hide Words, OkName, UseLine, Fires, Matches;
      UsesPickLatest(rest, rules, host, other);
    }
  }

  /** Two characters that differ at most in the case of a letter. */
  predicate SameLetter(c: char, d: char) {
    c == d || ('A' <= c <= 'Z' && d == c + 32 as char) || ('A' <= d <= 'Z' && c == d + 32 as char)
  }

  predicate SameHost(a: string, b: string) {
    |a| == |b| && forall i :: 0 <= i < |a| ==> SameLetter(a[i], b[i])
  }

  lemma SameHostMatches(patterns: seq<string>, a: string, b: string)
    requires SameHost(a, b)
    ensures Matches(patterns, a) <==> Matches(patterns, b)
  {
    assert Lower(a) == Lower(b);
  }

  /** The case of the letters in a host does not matter, neither in the domain nor in the request. */
  lemma {:induction false} CaseIgnored(svcs: seq<Service>, a: string, b: string)
    requires SameHost(a, b)
    ensures Latest(svcs, a) == Latest(svcs, b)
  {
    if svcs != [] {
      hide Matches, Words, SameHost;
      SameHostMatches(Words(svcs[|svcs| - 1].domain), a, b);
      CaseIgnored(svcs[..|svcs| - 1], a, b);
    }
  }

  // ---- one frontend ----

  /** Managed rules in a frontend take precedence over its own rules and change nothing else. */
  lemma FrontendRoutes(p: seq<string>, svcs: seq<Service>, q: seq<string>, host: string, other: seq<string> -> bool)
    requires Distinct(svcs) && forall i :: 0 <= i < |svcs| ==> OkName(svcs[i].name)
    requires forall i :: 0 <= i < |p| ==> !IsAnchor(p[i])
    requires forall i :: 0 <= i < |svcs| ==> RuleUnused(p, svcs[i].name) && RuleUnused(q, svcs[i].name)
    ensures Route(p + Acls(svcs) + Uses(svcs) + q, host, other)
      == if Latest(svcs, host) != [] then Latest(svcs, host) else Route(p + q, host, other)
  {
    var acls, uses := Acls(svcs), Uses(svcs);
    var r0 := RulesAfter(p, map[]);
    var r1 := RulesAfter(acls, r0);
    hide Words, OkName, Acls, Uses, IsAnchor, Matches, RulesAfter, FirstUse, Default, Latest;
    NoUse(p, map[], host, other);
    forall i | 0 <= i < |svcs| ensures RuleName(svcs[i].name) !in r0 {
      assert RuleUnused(p, svcs[i].name);
      RulesFromWords(p, map[], RuleName(svcs[i].name));
    }
    AclsDefine(svcs, r0, host, other);
    UsesPickLatest(svcs, r1, host, other);
    forall i, k | 0 <= i < |q| && k in HostNames(svcs) ensures k !in Words(q[i]) {
      var j :| 0 <= j < |svcs| && k == RuleName(svcs[j].name);
      assert RuleUnused(q, svcs[j].name);
    }
    UnusedRules(q, r0, r1, HostNames(svcs), host, other);
    FirstUseAppend(p, q, map[], host, other);
    FirstUseAppend(p, acls, map[], host, other);
    FirstUseAppend(p + acls, uses, map[], host, other);
    FirstUseAppend(p + acls + uses, q, map[], host, other);
    DefaultAppend(p, q);
    DefaultAppend(p, acls);
    DefaultAppend(p + acls, uses);
    DefaultAppend(p + acls + uses, q);
  }

  // ---- sections of a rendered config ----

  lemma NoHeaderCons(a: seq<string>)
    requires a != []
    ensures NoHeader(a) <==> !IsHeader(a[0]) && NoHeader(a[1..])
  {
    hide IsHeader;
    assert forall i :: 1 <= i < |a| ==> a[i] == a[1..][i - 1];
  }

  lemma BodyCons(l: string, rest: seq<string>)
    ensures Body([l] + rest) == if IsHeader(l) then [] else (if l == "" then [] else [l]) + Body(rest)
    ensures NoHeader([l] + rest) <==> !IsHeader(l) && NoHeader(rest)
  {
    hide IsHeader;
    var c := [l] + rest;
    assert c[0] == l && c[1..] == rest;
    NoHeaderCons(c);
  }

  lemma {:induction false} BodyAppend(a: seq<string>, b: seq<string>)
    ensures Body(a + b) == Body(a) + if NoHeader(a) then Body(b) else []
  {
    if a == [] {
      assert a + b == b;
    } else {
      hide IsHeader, NoHeader, Body;
      var h, t := a[0], a[1..];
      AppendHead(a, b);
      BodyCons(h, t);
      BodyCons(h, t + b);
      BodyAppend(t, b);
      Assoc(if h == "" then [] else [h], Body(t), if NoHeader(t) then Body(b) else []);
    }
  }

  lemma {:induction false} SectionOpen(a: seq<string>, b: seq<string>, header: string)
    requires Open(a, header)
    ensures Section(a + b, header) == Section(a, header) + Body(b)
  {
    hide IsHeader, Trim;
    assert (a + b)[0] == a[0] && (a + b)[1..] == a[1..] + b;
    if IsHeader(a[0]) && Trim(a[0]) == header {
      BodyAppend(a[1..], b);
    } else {
      SectionOpen(a[1..], b, header);
    }
  }

  /** Header-free lines put where the section is not open do not reach it. */
  lemma {:induction false} SectionElsewhere(a: seq<string>, m: seq<string>, b: seq<string>, header: string)
    requires NoHeader(m) && !Open(a, header)
    ensures Section(a + m + b, header) == Section(a + b, header)
  {
    hide IsHeader, Trim;
    if a == [] {
      assert a + m + b == m + b && a + b == b;
      SectionSkip(m, b, header);
    } else {
      assert (a + m + b)[0] == a[0] && (a + m + b)[1..] == a[1..] + m + b;
      assert (a + b)[0] == a[0] && (a + b)[1..] == a[1..] + b;
      if IsHeader(a[0]) && Trim(a[0]) == header {
        assert a[1..] + m + b == a[1..] + (m + b);
        BodyAppend(a[1..], m + b);
        BodyAppend(a[1..], b);
      } else {
        SectionElsewhere(a[1..], m, b, header);
      }
    }
  }

  lemma {:induction false} SectionSkip(a: seq<string>, b: seq<string>, header: string)
    requires forall i :: 0 <= i < |a| ==> !(IsHeader(a[i]) && Trim(a[i]) == header)
    ensures Section(a + b, header) == Section(b, header)
  {
    if a == [] {
      assert a + b == b;
    } else {
      hide IsHeader, Trim;
      assert (a + b)[0] == a[0] && (a + b)[1..] == a[1..] + b;
      SectionSkip(a[1..], b, header);
    }
  }

  lemma {:induction false} BodyLines(lines: seq<string>)
    ensures forall i :: 0 <= i < |Body(lines)| ==> Body(lines)[i] in lines
  {
    if lines != [] {
      hide IsHeader;
      BodyLines(lines[1..]);
    }
  }

  lemma {:induction false} SectionLines(lines: seq<string>, header: string)
    ensures forall i :: 0 <= i < |Section(lines, header)| ==> Section(lines, header)[i] in lines
  {
    if lines != [] {
      hide IsHeader, Trim;
      BodyLines(lines[1..]);
      SectionLines(lines[1..], header);
    }
  }

  lemma {:induction false} BodyOfIndented(lines: seq<string>)
    requires NoHeader(lines) && forall i :: 0 <= i < |lines| ==> lines[i] != ""
    ensures Body(lines) == lines
  {
    if lines != [] {
      hide IsHeader;
      BodyOfIndented(lines[1..]);
    }
  }

  lemma BlocksHead(svcs: seq<Service>)
    requires svcs != []
    ensures |Blocks(svcs)| > 1 && Blocks(svcs)[0] == "" && Blocks(svcs)[1] == BackendHeader(svcs[0].name)
  {
  }

  lemma BodyOfBlocks(svcs: seq<Service>)
    requires forall i :: 0 <= i < |svcs| ==> OkName(svcs[i].name)
    ensures Body(Blocks(svcs)) == []
  {
    if svcs == [] {
      assert Blocks(svcs) == [];
    } else {
      HeaderFacts(svcs[0].name, "x");
      assert !IsHeader("");
      hide IsHeader, BackendHeader, OkName, Blocks;
      BlocksHead(svcs);
      BodyEnds(Blocks(svcs));
    }
  }

  lemma BodyEnds(lines: seq<string>)
    requires |lines| > 1 && lines[0] == "" && !IsHeader(lines[0]) && IsHeader(lines[1])
    ensures Body(lines) == []
  {
    hide IsHeader;
    assert lines[1..] != [] && lines[1..][0] == lines[1];
    assert Body(lines[1..]) == [];
  }

  lemma RenderParts(base: seq<string>, svcs: seq<Service>)
    ensures var i := Position(base);
            && Render(base, svcs) == base[..i] + ((Acls(svcs) + Uses(svcs)) + (base[i..] + Blocks(svcs)))
            && base == base[..i] + base[i..]
  {
    hide Acls, Uses, Blocks, Position;
  }

  /** Rules put into an open section become part of its body; sections after it do not. */
  lemma SectionInsert(pre: seq<string>, rules: seq<string>, post: seq<string>, blocks: seq<string>, header: string)
    requires Open(pre, header) && Body(blocks) == []
    requires NoHeader(rules) && forall i :: 0 <= i < |rules| ==> rules[i] != ""
    ensures Section(pre + (rules + (post + blocks)), header) == Section(pre, header) + (rules + Body(post))
    ensures Section(pre + post, header) == Section(pre, header) + Body(post)
  {
    hide Open, Body, Section, IsHeader, NoHeader;
    SectionOpen(pre, rules + (post + blocks), header);
    SectionOpen(pre, post, header);
    BodyAppend(rules, post + blocks);
    BodyOfIndented(rules);
    BodyAppend(post, blocks);
    assert Body(post) + [] == Body(post);
  }

  /** The frontend of a rendered config is that of the base with the managed rules inside. */
  lemma ManagedFrontend(base: seq<string>, svcs: seq<Service>, header: string)
    requires forall i :: 0 <= i < |svcs| ==> OkService(svcs[i])
    requires Open(base[..Position(base)], header)
    ensures var p, q := Section(base[..Position(base)], header), Body(base[Position(base)..]);
            && Section(Render(base, svcs), header) == p + Acls(svcs) + Uses(svcs) + q
            && Section(base, header) == p + q
  {
    hide IsHeader, Trim, Acls, Uses, Blocks, IsMarked, IsRuleOf, IsAnchor, Clean, OkService, Body, Section, Open, Render,
         Position, NoHeader;
    var i := Position(base);
    var rules := Acls(svcs) + Uses(svcs);
    RulesIndented(svcs);
    RulesLength(svcs);
    RenderParts(base, svcs);
    BodyOfBlocks(svcs) by { NamesOk(svcs); }
    SectionInsert(base[..i], rules, base[i..], Blocks(svcs), header);
  }

  lemma NamesOk(svcs: seq<Service>)
    requires forall i :: 0 <= i < |svcs| ==> OkService(svcs[i])
    ensures forall i :: 0 <= i < |svcs| ==> OkName(svcs[i].name)
  {
  }

  lemma RuleLong(name: string, domain: string)
    ensures AclLine(name, domain) != "" && UseLine(name) != ""
  {
  }

  lemma RulesIndented(svcs: seq<Service>)
    requires forall i :: 0 <= i < |svcs| ==> OkService(svcs[i])
    ensures NoHeader(Acls(svcs) + Uses(svcs))
    ensures forall i :: 0 <= i < 2 * |svcs| ==> (Acls(svcs) + Uses(svcs))[i] != ""
  {
    hide IsHeader, Trim, IsMarked, IsRuleOf, IsAnchor, Clean, OkService, AclLine, UseLine;
    AclsFacts(svcs, "x");
    UsesFacts(svcs, "x");
    var n, rules := |svcs|, Acls(svcs) + Uses(svcs);
    forall i | 0 <= i < 2 * n ensures !IsHeader(rules[i]) && rules[i] != "" {
      if i < n {
        assert rules[i] == AclLine(svcs[i].name, svcs[i].domain) == Acls(svcs)[i];
        RuleLong(svcs[i].name, svcs[i].domain);
      } else {
        assert rules[i] == UseLine(svcs[n - 1 - (i - n)].name) == Uses(svcs)[i - n];
        RuleLong(svcs[n - 1 - (i - n)].name, "");
      }
    }
  }

  /** The routing of every rendered config: the most recent service whose domain matches the host,
      else what the base config does. */
  lemma RenderRoutes(base: seq<string>, svcs: seq<Service>, header: string, host: string, other: seq<string> -> bool)
    requires OkBase(base) && Manages(base, svcs)
    requires Open(base[..Position(base)], header)
    requires forall i :: 0 <= i < |svcs| ==> RuleUnused(base, svcs[i].name)
    ensures Route(Section(Render(base, svcs), header), host, other)
      == if Latest(svcs, host) != [] then Latest(svcs, host) else Route(Section(base, header), host, other)
  {
    var i := Position(base);
    var p, q := Section(base[..i], header), Body(base[i..]);
    hide IsHeader, Trim, IsAnchor, Words, Route, Latest, Fresh, Section, Body, Acls, Uses, Render, AllClean;
    NamesOk(svcs);
    ManagedFrontend(base, svcs, header);
    SectionLines(base[..i], header);
    BodyLines(base[i..]);
    forall j | 0 <= j < |svcs| ensures RuleUnused(p, svcs[j].name) && RuleUnused(q, svcs[j].name) {
      assert RuleUnused(base, svcs[j].name);
    }
    hide OkName, OkService;
    FrontendRoutes(p, svcs, q, host, other);
  }

  /** No service of the collection uses a rule name of the base text. */
  predicate RulesUnused(base: seq<string>, svcs: seq<Service>) {
    forall i :: 0 <= i < |svcs| ==> RuleUnused(base, svcs[i].name)
  }

  lemma {:induction false} ApplyAllUnused(base: seq<string>, svcs: seq<Service>, edits: seq<Edit>)
    requires RulesUnused(base, svcs) && Distinct(svcs)
    requires forall i :: 0 <= i < |edits| && edits[i].Add? ==> RuleUnused(base, edits[i].service.name)
    ensures RulesUnused(base, ApplyAll(svcs, edits))
    decreases |edits|
  {
    hide RuleUnused;
    if edits != [] {
      var next := Apply(svcs, edits[0]);
      assert RulesUnused(base, next) && Distinct(next) by {
        if edits[0].Remove? {
          WithoutFacts(svcs, edits[0].name);
        }
      }
      ApplyAllUnused(base, next, edits[1..]);
    }
  }

  /** Routing refinement over every run of adds and removes, failed ones included: a request goes to
      the most recently added service still present whose domain matches its host, and otherwise
      wherever the base config sends it. */
  lemma RunRoutes(content: string, edits: seq<Edit>, header: string, host: string, other: seq<string> -> bool)
    requires OkBase(Lines(content))
    requires forall i :: 0 <= i < |edits| ==> OkEdit(Lines(content), edits[i])
    requires forall i :: 0 <= i < |edits| && edits[i].Add? ==> RuleUnused(Lines(content), edits[i].service.name)
    requires Open(Lines(content)[..Position(Lines(content))], header)
    ensures var latest := Latest(ApplyAll([], edits), host);
            Route(Section(Lines(EditAll(content, edits)), header), host, other)
            == if latest != [] then latest else Route(Section(Lines(content), header), host, other)
  {
    hide OkBase, Manages, RuleUnused, OkEdit, Lines, Route, Section, Open, Render, ApplyAll, EditAll, Latest;
    var base := Lines(content);
    RunFromBase(content, edits);
    ApplyAllUnused(base, [], edits);
    RenderRoutes(base, ApplyAll([], edits), header, host, other);
  }

  /** Every other section of the base reads as before. */
  lemma OtherSections(base: seq<string>, svcs: seq<Service>, header: string)
    requires forall i :: 0 <= i < |svcs| ==> OkService(svcs[i]) && header != BackendHeader(svcs[i].name)
    requires !Open(base[..Position(base)], header)
    ensures Section(Render(base, svcs), header) == Section(base, header)
  {
    var i := Position(base);
    hide IsHeader, Trim, Acls, Uses, Blocks, IsAnchor, OkService, Body, Section, Open, BackendHeader;
    RulesIndented(svcs);
    RenderParts(base, svcs);
    var rules, tail := Acls(svcs) + Uses(svcs), base[i..] + Blocks(svcs);
    hide Render, Position;
    assert Render(base, svcs) == base[..i] + rules + tail;
    SectionElsewhere(base[..i], rules, tail, header);
    assert base[..i] + tail == base + Blocks(svcs);
    SectionThenBlocks(base, svcs, header);
  }

  lemma {:induction false} SectionThenBlocks(base: seq<string>, svcs: seq<Service>, header: string)
    requires forall i :: 0 <= i < |svcs| ==> OkService(svcs[i]) && header != BackendHeader(svcs[i].name)
    ensures Section(base + Blocks(svcs), header) == Section(base, header)
  {
    hide IsHeader, Trim, Blocks, OkService, BackendHeader;
    if base == [] {
      assert base + Blocks(svcs) == Blocks(svcs);
      NoSection(svcs, header);
    } else {
      var all := base + Blocks(svcs);
      assert all[0] == base[0] && all[1..] == base[1..] + Blocks(svcs);
      BodyAppend(base[1..], Blocks(svcs));
      BodyOfBlocks(svcs) by { NamesOk(svcs); }
      SectionThenBlocks(base[1..], svcs, header);
    }
  }

  lemma {:induction false} NoSection(svcs: seq<Service>, header: string)
    requires forall i :: 0 <= i < |svcs| ==> OkService(svcs[i]) && header != BackendHeader(svcs[i].name)
    ensures Section(Blocks(svcs), header) == []
  {
    if svcs != [] {
      var block := [""] + BlockLines(svcs[0].name);
      BlockFacts(svcs[0].name, svcs[0].name);
      HeaderFacts(svcs[0].name, svcs[0].name);
      assert Blocks(svcs) == block + Blocks(svcs[1..]);
      assert block[0] == "" && !IsHeader("");
      hide IsHeader, Trim, BlockLines, OkService, Blocks;
      SectionSkip(block, Blocks(svcs[1..]), header);
      NoSection(svcs[1..], header);
    }
  }

  /** The backend section of a managed service is exactly the generated one. */
  lemma BackendSection(base: seq<string>, svcs: seq<Service>, x: nat)
    requires OkBase(base) && Manages(base, svcs) && x < |svcs|
    ensures Section(Render(base, svcs), BackendHeader(svcs[x].name)) == BlockLines(svcs[x].name)[1..]
    ensures Section(Render(base, svcs), "backend " + svcs[x].name)
         == [ "    " + "balance leastconn",
              "    " + "option http-server-close",
              "    " + "option httpchk GET /",
              "    " + ("http-check expect " + "rstatus 2[0-9][0-9]"),
              "    " + ("http-response set-header " + "X-Served-By %[srv_name]") ]
  {
    GeneratedBody(svcs[x].name);
    var name, r := svcs[x].name, Render(base, svcs);
    var h := HeaderAt(base, svcs, x);
    hide Trim, IsHeader, BlockLines, Blocks, BackendHeader, OkBase, Manages, Section, Body, OkService, Render;
    forall i | 0 <= i < |r| ensures IsHeaderOf(r[i], name) <==> i == h {
      HeaderExactly(base, svcs, x, i);
    }
    HeaderExactly(base, svcs, x, 0);
    assert r == r[..h] + r[h..];
    SectionSkip(r[..h], r[h..], BackendHeader(name));
    SectionHere(r[h..], BackendHeader(name));
    TailAfterHeader(base, svcs, x);
    BodyOfSection(name, svcs[x + 1..]) by {
      assert forall i :: 0 <= i < |svcs| ==> OkService(svcs[i]) by { ManagedOk(base, svcs); }
    }
    assert r[h..][1..] == r[h + 1..];
  }

  lemma ManagedOk(base: seq<string>, svcs: seq<Service>)
    requires Manages(base, svcs)
    ensures forall i :: 0 <= i < |svcs| ==> OkService(svcs[i])
  {
  }

  lemma SectionHere(lines: seq<string>, header: string)
    requires lines != [] && IsHeader(lines[0]) && Trim(lines[0]) == header
    ensures Section(lines, header) == Body(lines[1..])
  {
  }

  lemma GeneratedBody(name: string)
    ensures BlockLines(name)[1..]
         == [ "    " + "balance leastconn",
              "    " + "option http-server-close",
              "    " + "option httpchk GET /",
              "    " + ("http-check expect " + "rstatus 2[0-9][0-9]"),
              "    " + ("http-response set-header " + "X-Served-By %[srv_name]") ]
    ensures BackendHeader(name) == "backend " + name
  {
  }

  lemma TailAfterHeader(base: seq<string>, svcs: seq<Service>, x: nat)
    requires x < |svcs|
    ensures HeaderAt(base, svcs, x) < |Render(base, svcs)|
    ensures Render(base, svcs)[HeaderAt(base, svcs, x) + 1..] == BlockLines(svcs[x].name)[1..] + Blocks(svcs[x + 1..])
  {
    var a, b := svcs[..x], svcs[x + 1..];
    assert svcs == a + ([svcs[x]] + b);
    BlocksAppend(a, [svcs[x]] + b);
    BlocksAppend([svcs[x]], b);
    BlocksOne(svcs[x]);
    BlocksLength(a);
    hide BlockLines, Blocks, IsAnchor;
    var r, front := Render(base, svcs), |base| + 2 * |svcs|;
    assert r[front..] == Blocks(svcs);
    assert r[HeaderAt(base, svcs, x) + 1..] == Blocks(svcs)[7 * x + 2..];
    assert Blocks(svcs)[7 * x + 2..] == ([""] + BlockLines(svcs[x].name) + Blocks(b))[2..];
    BlockLength(svcs[x].name);
  }

  lemma {:induction false} BlocksLength(svcs: seq<Service>)
    ensures |Blocks(svcs)| == 7 * |svcs|
  {
    if svcs != [] {
      BlocksLength(svcs[1..]);
    }
  }

  lemma BlockIndented(name: string)
    ensures forall i :: 1 <= i < 6 ==> !IsHeader(BlockLines(name)[i]) && BlockLines(name)[i] != ""
  {
    BlockPlain(name, "x");
  }

  lemma BodyOfSection(name: string, after: seq<Service>)
    requires forall i :: 0 <= i < |after| ==> OkService(after[i])
    ensures Body(BlockLines(name)[1..] + Blocks(after)) == BlockLines(name)[1..]
  {
    BlockLength(name);
    BlockIndented(name);
    hide BlockLines, Blocks, IsHeader, OkService, Body;
    var body := BlockLines(name)[1..];
    assert NoHeader(body);
    hide NoHeader;
    BodyAppend(body, Blocks(after));
    BodyOfIndented(body);
    BodyOfBlocks(after) by { NamesOk(after); }
    assert body + [] == body;
  }
}
