/**
 Campaign path authority: the string canonicalisation of `campaign_paths.rs` and
 `workspace_path.rs`, the prefix test of `allowed_path.rs`, and what that test means on
 component lists.
 */
module Paths {
  import opened Wrappers

  // ---------------------------------------------------------------- strings

  /** The Unicode White_Space property, which is what `str::trim` strips. */
  predicate IsWhitespace(c: char) {
    '\t' <= c <= '\r' || c == ' ' || c == '\U{85}' || c == '\U{A0}' || c == '\U{1680}'
    || '\U{2000}' <= c <= '\U{200A}' || c == '\U{2028}' || c == '\U{2029}' || c == '\U{202F}'
    || c == '\U{205F}' || c == '\U{3000}'
  }

  function TrimStart(s: string): string {
    if s != "" && IsWhitespace(s[0]) then TrimStart(s[1..]) else s
  }

  function TrimEnd(s: string): string {
    if s != "" && IsWhitespace(s[|s| - 1]) then TrimEnd(s[..|s| - 1]) else s
  }

  function Trim(s: string): string {
    TrimEnd(TrimStart(s))
  }

  /** `trim_end_matches('/')` */
  function TrimSlashes(s: string): string {
    if s != "" && s[|s| - 1] == '/' then TrimSlashes(s[..|s| - 1]) else s
  }

  predicate EndsInWhitespace(s: string) {
    s != "" && IsWhitespace(s[|s| - 1])
  }

  function Split(s: string): (parts: seq<string>)
    ensures |parts| > 0
  {
    if s == "" then
      [""]
    else
      var rest := Split(s[1..]);
      if s[0] == '/' then [""] + rest else [[s[0]] + rest[0]] + rest[1..]
  }

  function Join(parts: seq<string>): string {
    if |parts| == 0 then
      ""
    else if |parts| == 1 then
      parts[0]
    else
      parts[0] + "/" + Join(parts[1..])
  }

  predicate SlashFree(s: string) {
    '/' !in s
  }

  // ---------------------------------------------------------------- std::path components

  datatype Component = RootDir | CurDir | ParentDir | Normal(part: string)

  /** A `.` is a component only at the very start of a path; empty parts never are. */
  function ComponentOf(part: string, first: bool): seq<Component> {
    if part == "" then
      []
    else if part == "." then
      if first then [CurDir] else []
    else if part == ".." then
      [ParentDir]
    else
      [Normal(part)]
  }

  function ComponentsOf(parts: seq<string>, first: bool): seq<Component> {
    if parts == [] then [] else ComponentOf(parts[0], first) + ComponentsOf(parts[1..], false)
  }

  predicate IsAbsolute(s: string) {
    s != "" && s[0] == '/'
  }

  function Components(s: string): seq<Component> {
    (if IsAbsolute(s) then [RootDir] else []) + ComponentsOf(Split(s), true)
  }

  // ---------------------------------------------------------------- workspace paths

  const WORKSPACE_MOUNT := "/workspace"

  /** What is left of a trimmed request once the mount prefix is gone. */
  function RelativeRequest(requested: string): Result<string> {
    var trimmed := Trim(requested);
    if trimmed == "" || trimmed == WORKSPACE_MOUNT then
      Err(false)
    else if WORKSPACE_MOUNT + "/" <= trimmed then
      if trimmed == WORKSPACE_MOUNT + "/" then Err(false) else Ok(trimmed[|WORKSPACE_MOUNT| + 1..])
    else if IsAbsolute(trimmed) then
      Err(false)
    else
      Ok(trimmed)
  }

  /** Stack normalisation as a left fold. */
  function Resolve(components: seq<Component>, stack: seq<string>): Result<seq<string>> {
    if components == [] then
      Ok(stack)
    else
      match components[0]
      case CurDir => Resolve(components[1..], stack)
      case Normal(part) => Resolve(components[1..], stack + [part])
      case ParentDir => if stack == [] then Err(false) else Resolve(components[1..], stack[..|stack| - 1])
      case RootDir => Err(false)
  }

  /** `WorkspacePath::parse`; the relative path is the value. */
  function WorkspacePath(requested: string): Result<string> {
    var relative :- RelativeRequest(requested);
    var normalized :- Resolve(Components(relative), []);
    if normalized == [] then Err(false) else Ok(Join(normalized))
  }

  function ContainerPath(relative: string): string {
    WORKSPACE_MOUNT + "/" + relative
  }

  /** The loop of `WorkspacePath::parse`, pushing to and popping from `normalized`. */
  method NormalizeComponents(components: seq<Component>) returns (result: Result<seq<string>>)
    ensures result == Resolve(components, [])
  {
    var normalized: seq<string> := [];
    var i := 0;
    while i < |components|
      invariant 0 <= i <= |components|
      invariant Resolve(components, []) == Resolve(components[i..], normalized)
    {
      assert components[i..][1..] == components[i + 1..];
      match components[i] {
        case CurDir =>
        case Normal(part) => normalized := normalized + [part];
        case ParentDir =>
          if normalized == [] {
            return Err(false);
          }
          normalized := normalized[..|normalized| - 1];
        case RootDir => return Err(false);
      }
      i := i + 1;
    }
    assert components[i..] == [];
    return Ok(normalized);
  }

  // ---------------------------------------------------------------- allowed paths

  /** `AllowedPath::new` */
  function AllowedPath(value: string): Result<string> {
    var trimmed := Trim(value);
    if trimmed == "" || IsAbsolute(trimmed) || '\0' in trimmed || ParentDir in Components(trimmed) then
      Err(false)
    else
      Ok(TrimSlashes(trimmed))
  }

  /** `AllowedPath::allows` */
  predicate Allows(allowed: string, changed: string) {
    var normalized := TrimSlashes(Trim(changed));
    normalized == allowed || allowed + "/" <= normalized
  }

  /** `parse_campaign_path` */
  function CampaignPath(raw: string): Result<string> {
    var trimmed := Trim(raw);
    if trimmed == "" || '\0' in raw || IsAbsolute(trimmed) then
      Err(false)
    else if CurDir in Components(trimmed) || ParentDir in Components(trimmed) then
      Err(false)
    else
      var parsed :- WorkspacePath(trimmed);
      AllowedPath(parsed)
  }

  /** `allowed_paths_from`, element by element. */
  function AllowedPathsFrom(values: seq<string>): Result<seq<string>> {
    if values == [] then
      Ok([])
    else
      var parsed :- CampaignPath(values[0]);
      var allowed :- AllowedPath(parsed);
      var rest :- AllowedPathsFrom(values[1..]);
      Ok([allowed] + rest)
  }

  function CampaignPaths(values: seq<string>): Result<seq<string>> {
    if values == [] then
      Ok([])
    else
      var parsed :- CampaignPath(values[0]);
      var rest :- CampaignPaths(values[1..]);
      Ok([parsed] + rest)
  }

  /** `AllowedPaths::new` refuses the empty list. */
  function AllowedPaths(values: seq<string>): Result<seq<string>> {
    var allowed :- AllowedPathsFrom(values);
    if allowed == [] then Err(false) else Ok(allowed)
  }

  predicate AnyAllows(allowed: seq<string>, changed: string) {
    exists i :: 0 <= i < |allowed| && Allows(allowed[i], changed)
  }

  /** `AllowedPaths::reject_disallowed` */
  function RejectDisallowed(allowed: seq<string>, changed: seq<string>): (rejected: seq<string>)
    ensures forall p :: p in rejected <==> p in changed && !AnyAllows(allowed, p)
  {
    if changed == [] then
      []
    else
      (if AnyAllows(allowed, changed[0]) then [] else [changed[0]]) + RejectDisallowed(allowed, changed[1..])
  }

  function PathIsAuthorized(path: string, allowlist: seq<string>): Result<bool> {
    var changed :- CampaignPath(path);
    var allowed :- AllowedPaths(allowlist);
    Ok(AnyAllows(allowed, changed))
  }

  function PathIsUnderPrefix(path: string, prefix: string): Result<bool> {
    var changed :- CampaignPath(path);
    var parsed :- CampaignPath(prefix);
    var allowed :- AllowedPath(parsed);
    Ok(Allows(allowed, changed))
  }

  /** `assert_authorized_paths` */
  function AssertAuthorizedPaths(changed: seq<string>, allowlist: seq<string>): Result<()> {
    var allowed :- AllowedPaths(allowlist);
    var normalized :- CampaignPaths(changed);
    if RejectDisallowed(allowed, normalized) == [] then Ok(()) else Err(false)
  }

  /** `required_prefix_satisfied`: stops at the first path that fits or fails to parse. */
  function RequiredPrefixSatisfied(changed: seq<string>, required: string): Result<bool> {
    var parsed :- CampaignPath(required);
    var prefix :- AllowedPath(parsed);
    AnyUnder(changed, prefix)
  }

  function AnyUnder(changed: seq<string>, prefix: string): Result<bool> {
    if changed == [] then
      Ok(false)
    else
      var normalized :- CampaignPath(changed[0]);
      if Allows(prefix, normalized) then Ok(true) else AnyUnder(changed[1..], prefix)
  }

  /** `path_covered_by_permitted` */
  function CoveredByPermitted(path: string, permitted: seq<string>): Result<bool> {
    if permitted == [] then
      Ok(false)
    else
      var under :- PathIsUnderPrefix(path, permitted[0]);
      if under then Ok(true) else CoveredByPermitted(path, permitted[1..])
  }

  function AllCovered(paths: seq<string>, permitted: seq<string>): Result<()> {
    if paths == [] then
      Ok(())
    else
      var _ :- CampaignPath(paths[0]);
      var covered :- CoveredByPermitted(paths[0], permitted);
      if covered then AllCovered(paths[1..], permitted) else Err(false)
  }

  /** `assert_step_paths_permitted` */
  function AssertStepPathsPermitted(allowedPaths: seq<string>, requiredPaths: seq<string>,
                                    permitted: seq<string>): Result<()> {
    var _ :- AllCovered(allowedPaths, permitted);
    AllCovered(requiredPaths, permitted)
  }

  /** `ChangeLayout::is_ephemeral_path` */
  predicate IsEphemeral(path: string) {
    path == "target" || "target/" <= path || path == ".rack-cargo" || ".rack-cargo/" <= path
  }

  /** `source_paths` */
  function SourcePaths(paths: seq<string>): (source: seq<string>)
    ensures forall p :: p in source <==> p in paths && !IsEphemeral(p)
  {
    if paths == [] then
      []
    else
      (if IsEphemeral(paths[0]) then [] else [paths[0]]) + SourcePaths(paths[1..])
  }

  /** A path is ephemeral exactly when its first part is one of the two build directories. */
  lemma EphemeralMeans(path: string)
    ensures IsEphemeral(path) <==> Split(path)[0] == "target" || Split(path)[0] == ".rack-cargo"
  {
    hide Split;
    FirstPart("target", path);
    FirstPart(".rack-cargo", path);
    assert "target" + "/" == "target/" && ".rack-cargo" + "/" == ".rack-cargo/";
  }

  lemma FirstPart(name: string, path: string)
    requires '/' !in name
    ensures path == name || name + "/" <= path <==> Split(path)[0] == name
  {
    hide Split;
    SplitSlashFree(name);
    StringPrefixIsPartPrefix(name, path);
    assert [name] <= Split(path) <==> Split(path)[0] == name;
  }

  /** Keeping source paths is a filter: order and repetitions stay. */
  lemma {:induction false} SourcePathsInOrder(xs: seq<string>, ys: seq<string>)
    ensures SourcePaths(xs + ys) == SourcePaths(xs) + SourcePaths(ys)
    ensures forall p :: SourcePaths([p]) == if IsEphemeral(p) then [] else [p]
  {
    hide IsEphemeral;
    if xs == [] {
      assert xs + ys == ys;
      forall p | true
        ensures SourcePaths([p]) == if IsEphemeral(p) then [] else [p]
      {
        assert [p][1..] == [];
      }
    } else {
      assert (xs + ys)[0] == xs[0] && (xs + ys)[1..] == xs[1..] + ys;
      SourcePathsInOrder(xs[1..], ys);
    }
  }

  /** So is rejecting disallowed paths. */
  lemma {:induction false} RejectedInOrder(allowed: seq<string>, xs: seq<string>, ys: seq<string>)
    ensures RejectDisallowed(allowed, xs + ys) == RejectDisallowed(allowed, xs) + RejectDisallowed(allowed, ys)
    ensures forall p :: RejectDisallowed(allowed, [p]) == if AnyAllows(allowed, p) then [] else [p]
  {
    hide AnyAllows;
    if xs == [] {
      assert xs + ys == ys;
    } else {
      assert (xs + ys)[0] == xs[0] && (xs + ys)[1..] == xs[1..] + ys;
      RejectedInOrder(allowed, xs[1..], ys);
    }
  }

  // ---------------------------------------------------------------- Split and Join

  lemma {:induction false} SplitConcat(x: string, y: string)
    ensures Split(x + "/" + y) == Split(x) + Split(y)
  {
    if x == "" {
      assert x + "/" + y == "/" + y;
      assert ("/" + y)[1..] == y;
    } else {
      assert (x + "/" + y)[1..] == x[1..] + "/" + y;
      SplitConcat(x[1..], y);
    }
  }

  lemma {:induction false} JoinSplit(s: string)
    ensures Join(Split(s)) == s
  {
    if s != "" {
      JoinSplit(s[1..]);
      var rest := Split(s[1..]);
      JoinBlank(rest);
      JoinHead(s[0], rest);
      hide Join;
      assert s == [s[0]] + s[1..];
    }
  }

  lemma JoinBlank(parts: seq<string>)
    requires parts != []
    ensures Join([""] + parts) == "/" + Join(parts)
  {
    assert ([""] + parts)[1..] == parts;
  }

  lemma JoinHead(c: char, parts: seq<string>)
    requires parts != []
    ensures Join([[c] + parts[0]] + parts[1..]) == [c] + Join(parts)
  {
    assert ([[c] + parts[0]] + parts[1..])[1..] == parts[1..];
  }

  lemma {:induction false} SplitSlashFree(s: string)
    requires SlashFree(s)
    ensures Split(s) == [s]
  {
    if s != "" {
      SplitSlashFree(s[1..]);
      assert s == [s[0]] + s[1..];
    }
  }

  lemma {:induction false} SplitParts(s: string)
    ensures forall i :: 0 <= i < |Split(s)| ==> SlashFree(Split(s)[i])
  {
    if s != "" {
      SplitParts(s[1..]);
      var rest := Split(s[1..]);
      assert SlashFree(rest[0]);
      assert forall i :: 1 <= i < |Split(s)| && s[0] != '/' ==> Split(s)[i] == rest[i];
      assert forall i :: 1 <= i < |Split(s)| && s[0] == '/' ==> Split(s)[i] == rest[i - 1];
    }
  }

  lemma {:induction false} SplitJoin(parts: seq<string>)
    requires parts != []
    requires forall i :: 0 <= i < |parts| ==> SlashFree(parts[i])
    ensures Split(Join(parts)) == parts
  {
    SplitSlashFree(parts[0]);
    if |parts| > 1 {
      SplitJoin(parts[1..]);
      SplitConcat(parts[0], Join(parts[1..]));
    }
  }

  lemma {:induction false} JoinConcat(xs: seq<string>, ys: seq<string>)
    requires xs != [] && ys != []
    ensures Join(xs + ys) == Join(xs) + "/" + Join(ys)
  {
    if |xs| == 1 {
      assert (xs + ys)[1..] == ys;
    } else {
      assert (xs + ys)[1..] == xs[1..] + ys;
      JoinConcat(xs[1..], ys);
    }
  }

  /** The string test decides the sequence-prefix relation on parts, for all strings. */
  lemma StringPrefixIsPartPrefix(x: string, y: string)
    ensures (y == x || x + "/" <= y) <==> Split(x) <= Split(y)
  {
    if x + "/" <= y {
      var z := y[|x| + 1..];
      assert y == x + "/" + z;
      SplitConcat(x, z);
    }
    if Split(x) <= Split(y) {
      var rest := Split(y)[|Split(x)|..];
      assert Split(y) == Split(x) + rest;
      JoinSplit(x);
      JoinSplit(y);
      if rest != [] {
        JoinConcat(Split(x), rest);
      } else {
        assert Split(y) == Split(x);
      }
    }
  }

  // ---------------------------------------------------------------- trimming

  lemma {:induction false} TrimEndFacts(s: string)
    ensures TrimEnd(s) <= s
    ensures !EndsInWhitespace(TrimEnd(s))
    ensures TrimEnd(s) == s <==> !EndsInWhitespace(s)
    ensures forall i :: |TrimEnd(s)| <= i < |s| ==> IsWhitespace(s[i])
  {
    if EndsInWhitespace(s) {
      TrimEndFacts(s[..|s| - 1]);
    }
  }

  lemma {:induction false} TrimStartFacts(s: string)
    ensures |TrimStart(s)| <= |s| && TrimStart(s) == s[|s| - |TrimStart(s)|..]
    ensures TrimStart(s) != "" ==> !IsWhitespace(TrimStart(s)[0])
    ensures s != "" && !IsWhitespace(s[0]) ==> TrimStart(s) == s
    ensures forall i :: 0 <= i < |s| - |TrimStart(s)| ==> IsWhitespace(s[i])
  {
    if s != "" && IsWhitespace(s[0]) {
      TrimStartFacts(s[1..]);
    }
  }

  lemma TrimFacts(s: string)
    ensures |Trim(s)| <= |s|
    ensures Trim(s) != "" ==> !IsWhitespace(Trim(s)[0]) && !EndsInWhitespace(Trim(s))
    ensures s != "" && !IsWhitespace(s[0]) ==> Trim(s) == TrimEnd(s)
  {
    hide IsWhitespace;
    TrimStartFacts(s);
    TrimEndFacts(TrimStart(s));
  }

  /** Trimming cuts white space off both ends, and nothing else. */
  lemma TrimMeans(s: string)
    ensures exists i, j :: 0 <= i <= j <= |s| && Trim(s) == s[i..j] && Blank(s[..i]) && Blank(s[j..])
    ensures Trim(s) != "" ==> !IsWhitespace(Trim(s)[0]) && !EndsInWhitespace(Trim(s))
  {
    TrimStartFacts(s);
    TrimEndFacts(TrimStart(s));
    TrimFacts(s);
    hide IsWhitespace;
    var i, j := |s| - |TrimStart(s)|, |s| - |TrimStart(s)| + |Trim(s)|;
    assert Trim(s) == s[i..j] && Blank(s[..i]) && Blank(s[j..]);
  }

  /** Nothing but slashes is cut off the end, and all of them are. */
  lemma {:induction false} TrimSlashesMeans(s: string)
    ensures |TrimSlashes(s)| <= |s| && TrimSlashes(s) == s[..|TrimSlashes(s)|]
    ensures forall k :: |TrimSlashes(s)| <= k < |s| ==> s[k] == '/'
    ensures TrimSlashes(s) != "" ==> TrimSlashes(s)[|TrimSlashes(s)| - 1] != '/'
  {
    if s != "" && s[|s| - 1] == '/' {
      TrimSlashesMeans(s[..|s| - 1]);
    }
  }

  /** The components that are not names show in the parts: a `.` counts at the very start only. */
  lemma ComponentsMean(s: string)
    ensures RootDir in Components(s) <==> IsAbsolute(s)
    ensures CurDir in Components(s) <==> Split(s)[0] == "."
    ensures ParentDir in Components(s) <==> ".." in Split(s)
  {
    PartsMean(Split(s), true);
    hide Split, ComponentsOf;
  }

  lemma {:induction false} PartsMean(parts: seq<string>, first: bool)
    ensures RootDir !in ComponentsOf(parts, first)
    ensures CurDir in ComponentsOf(parts, first) <==> first && parts != [] && parts[0] == "."
    ensures ParentDir in ComponentsOf(parts, first) <==> ".." in parts
  {
    if parts != [] {
      PartsMean(parts[1..], false);
      assert parts == [parts[0]] + parts[1..];
    }
  }

  predicate Blank(s: string) {
    forall i :: 0 <= i < |s| ==> IsWhitespace(s[i])
  }

  lemma TrimFixed(s: string)
    requires s != "" ==> !IsWhitespace(s[0]) && !EndsInWhitespace(s)
    ensures Trim(s) == s
  {
    hide IsWhitespace;
    TrimStartFacts(s);
    TrimEndFacts(s);
  }

  lemma {:induction false} TrimSlashesFacts(s: string)
    ensures TrimSlashes(s) <= s
    ensures TrimSlashes(s) == s <==> !(s != "" && s[|s| - 1] == '/')
  {
    if s != "" && s[|s| - 1] == '/' {
      TrimSlashesFacts(s[..|s| - 1]);
    }
  }

  /** Trimming the end of a nonempty word behind anything that does not need trimming. */
  lemma {:induction false} TrimEndBehind(head: string, s: string)
    ensures TrimEnd(s) != "" ==> TrimEnd(head + s) == head + TrimEnd(s)
    ensures TrimEnd(s) == "" ==> TrimEnd(head + s) == TrimEnd(head)
  {
    if s == "" {
      assert head + s == head;
    } else if EndsInWhitespace(s) {
      assert (head + s)[..|head + s| - 1] == head + s[..|s| - 1];
      TrimEndBehind(head, s[..|s| - 1]);
    }
  }
}
