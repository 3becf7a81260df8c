/** The HAProxy configuration editor: `add_service`, `remove_service`, `service_exists` and `list_services`. */
module Config {
  import opened Text

  datatype Service = Service(name: string, domain: string)

  // ---- the lines the editor writes ----

  /** The lines of a service's backend section. */
  function BlockLines(name: string): seq<string> {
    [ BackendHeader(name),
      "    " + "balance leastconn",
      "    " + "option http-server-close",
      "    " + "option httpchk GET /",
      "    " + ("http-check expect " + "rstatus 2[0-9][0-9]"),
      "    " + ("http-response set-header " + "X-Served-By %[srv_name]") ]
  }

  /** One multi-line string: a blank line, then the section, every line terminated. */
  function BackendBlock(name: string): string {
    "\n" + Unlines(BlockLines(name))
  }

  function AclLine(name: string, domain: string): string {
    "    " + (AclMarker(name) + ("hdr(host) -i " + domain))
  }

  function UseLine(name: string): string {
    "    " + (UseMarker(name) + ("if host_" + name))
  }

  function AclMarker(name: string): string {
    "acl host_" + (name + " ")
  }

  function UseMarker(name: string): string {
    "use_backend " + (name + " ")
  }

  function BackendHeader(name: string): string {
    "backend " + name
  }

  // ---- the tests the editor makes on a line ----

  /** A line that starts a new section: neither indented nor empty. */
  predicate IsHeader(line: string) {
    !StartsWith(line, " ") && !StartsWith(line, "\t") && line != ""
  }

  /** A routing line in front of which new rules are inserted. */
  predicate IsAnchor(line: string) {
    StartsWith(Trim(line), "default_backend") || StartsWith(Trim(line), "use_backend")
  }

  predicate IsMarked(line: string, name: string) {
    StartsWith(Trim(line), AclMarker(name))
  }

  predicate IsRuleOf(line: string, name: string) {
    StartsWith(line, "    " + AclMarker(name)) || StartsWith(line, "    " + UseMarker(name))
  }

  predicate IsHeaderOf(line: string, name: string) {
    IsHeader(line) && Trim(line) == BackendHeader(name)
  }

  // ---- the operations, as functions of the text ----

  predicate MarkedIn(lines: seq<string>, name: string) {
    exists i :: 0 <= i < |lines| && IsMarked(lines[i], name)
  }

  predicate ServiceExists(content: string, name: string) {
    MarkedIn(Lines(content), name)
  }

  /** The index of the first routing line, or the length when there is none. */
  function Position(lines: seq<string>): (i: nat)
    ensures i <= |lines|
    ensures forall k :: 0 <= k < i ==> !IsAnchor(lines[k])
    ensures i < |lines| ==> IsAnchor(lines[i])
  {
    if lines == [] || IsAnchor(lines[0]) then 0 else 1 + Position(lines[1..])
  }

  predicate HasAnchor(lines: seq<string>) {
    Position(lines) < |lines|
  }

  /** The text that `add_service` writes. */
  function Inserted(content: string, name: string, domain: string): string
  {
    var lines := Lines(content);
    var i := Position(lines);
    Join(lines[..i] + [AclLine(name, domain), UseLine(name)] + lines[i..] + [BackendBlock(name)])
  }

  /** The section flag of the removal scan after one line. */
  predicate FlagAfterLine(line: string, flag: bool, name: string) {
    if IsHeader(line) then Trim(line) == BackendHeader(name) else flag
  }

  predicate Flag(lines: seq<string>, flag: bool, name: string) {
    if lines == [] then flag else Flag(lines[1..], FlagAfterLine(lines[0], flag, name), name)
  }

  predicate Drops(line: string, flag: bool, name: string) {
    FlagAfterLine(line, flag, name) || IsRuleOf(line, name)
  }

  /** The lines that the removal scan keeps, started with the given section flag. */
  function Keep(lines: seq<string>, flag: bool, name: string): seq<string> {
    if lines == [] then []
    else
      (if Drops(lines[0], flag, name) then [] else [lines[0]])
      + Keep(lines[1..], FlagAfterLine(lines[0], flag, name), name)
  }

  lemma KeepStep(acc: seq<string>, lines: seq<string>, i: nat, flag: bool, name: string)
    requires i < |lines|
    ensures var flag' := FlagAfterLine(lines[i], flag, name);
            acc + Keep(lines[i..], flag, name)
            == (if flag' || IsRuleOf(lines[i], name) then acc else acc + [lines[i]]) + Keep(lines[i + 1..], flag', name)
  {
    assert lines[i..][0] == lines[i] && lines[i..][1..] == lines[i + 1..];
  }

  /** The text that `remove_service` writes. */
  function Filtered(content: string, name: string): string {
    Join(Keep(Lines(content), false, name))
  }

  /** What happens outside the editor once it has written a text: the verdict of `haproxy -c`,
      and whether the reload signal could be delivered. */
  datatype Verdict = Accepted | Rejected | Unreloadable

  datatype Status = Done | FrontendNotFound | ValidationFailed | ReloadFailed

  function AddText(content: string, name: string, domain: string, verdict: Verdict): string {
    if ServiceExists(content, name) || !HasAnchor(Lines(content)) || verdict.Rejected? then content
    else Inserted(content, name, domain)
  }

  function RemoveText(content: string, name: string, verdict: Verdict): string {
    if !ServiceExists(content, name) || verdict.Rejected? then content else Filtered(content, name)
  }

  /** The names on the `backend svc_` lines, in the order of the text. */
  function ListIn(lines: seq<string>): seq<string> {
    if lines == [] then []
    else
      var t := Trim(lines[0]);
      (if StartsWith(t, "backend svc_") then [t[|"backend "|..]] else []) + ListIn(lines[1..])
  }

  function ListServices(content: string): seq<string> {
    ListIn(Lines(content))
  }

  // ---- the operations, as the editor performs them on its file ----

  /** The removal scan: one pass over the lines with a section flag. */
  method KeptLines(lines: seq<string>, name: string) returns (filtered: seq<string>)
    ensures filtered == Keep(lines, false, name)
  {
    var inTargetBackend := false;
    filtered := [];
    for i := 0 to |lines|
      invariant filtered + Keep(lines[i..], inTargetBackend, name) == Keep(lines, false, name)
    {
      var line := lines[i];
      KeepStep(filtered, lines, i, inTargetBackend, name);
      if IsHeader(line) {
        inTargetBackend := Trim(line) == BackendHeader(name);
      }
      if inTargetBackend {
        continue;
      }
      if IsRuleOf(line, name) {
        continue;
      }
      filtered := filtered + [line];
    }
    assert lines[|lines|..] == [] && filtered + [] == filtered;
  }

  lemma InsertTwo(lines: seq<string>, i: nat, second: string, first: string)
    requires i <= |lines|
    ensures var once := lines[..i] + [second] + lines[i..];
            once[..i] + [first] + once[i..] == lines[..i] + [first, second] + lines[i..]
  {
    var once := lines[..i] + [second] + lines[i..];
    assert once[..i] == lines[..i] && once[i..] == [second] + lines[i..];
  }

  class ConfigFile {
    var content: string
    var reloads: nat

    constructor (text: string)
      ensures content == text && reloads == 0
    {
      content, reloads := text, 0;
    }

    method AddService(name: string, domain: string, verdict: Verdict) returns (status: Status)
      modifies this
      ensures content == AddText(old(content), name, domain, verdict)
      ensures status == if ServiceExists(old(content), name) then Done
                        else if !HasAnchor(Lines(old(content))) then FrontendNotFound
                        else if verdict.Rejected? then ValidationFailed
                        else if verdict.Unreloadable? then ReloadFailed
                        else Done
      ensures status.FrontendNotFound? || status.ValidationFailed? || (reloads == old(reloads) && status.Done?) ==>
        content == old(content)
      ensures status.ReloadFailed? || reloads > old(reloads) ==> content == Inserted(old(content), name, domain)
      ensures reloads == old(reloads)
                         + if !ServiceExists(old(content), name) && status.Done? then 1 else 0
    {
      hide ServiceExists, Lines, Join, IsAnchor, AclLine, UseLine, BackendBlock;
      if ServiceExists(content, name) {
        return Done;
      }
      var backup := content;
      var lines := Lines(content);
      var insertPos := Position(lines);
      if insertPos == |lines| {
        return FrontendNotFound;
      }
      var acl, useBe := AclLine(name, domain), UseLine(name);
      InsertTwo(lines, insertPos, useBe, acl);
      lines := lines[..insertPos] + [useBe] + lines[insertPos..];
      lines := lines[..insertPos] + [acl] + lines[insertPos..];
      lines := lines + [BackendBlock(name)];
      content := Join(lines);
      if verdict.Rejected? {
        content := backup;
        return ValidationFailed;
      }
      if verdict.Unreloadable? {
        return ReloadFailed;
      }
      reloads := reloads + 1;
      return Done;
    }

    method RemoveService(name: string, verdict: Verdict) returns (status: Status)
      modifies this
      ensures content == RemoveText(old(content), name, verdict)
      ensures status == if !ServiceExists(old(content), name) then Done
                        else if verdict.Rejected? then ValidationFailed
                        else if verdict.Unreloadable? then ReloadFailed
                        else Done
      ensures status.ValidationFailed? || (reloads == old(reloads) && status.Done?) ==> content == old(content)
      ensures status.ReloadFailed? || reloads > old(reloads) ==> content == Filtered(old(content), name)
      ensures reloads == old(reloads) + if ServiceExists(old(content), name) && status.Done? then 1 else 0
    {
      if !ServiceExists(content, name) {
        return Done;
      }
      var backup := content;
      var lines := Lines(content);
      var filtered := KeptLines(lines, name);
      content := Join(filtered);
      if verdict.Rejected? {
        content := backup;
        return ValidationFailed;
      }
      if verdict.Unreloadable? {
        return ReloadFailed;
      }
      reloads := reloads + 1;
      return Done;
    }
  }
}
