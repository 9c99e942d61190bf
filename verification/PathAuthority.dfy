/**
 What the string tests of `Paths` mean: the authority relation on component lists, its
 transitivity through step validation, when canonicalisation settles in one pass, and the
 exact domain of workspace paths.
 */
module PathAuthority {
  import opened Wrappers
  import opened Paths

  // ---------------------------------------------------------------- the authority relation

  /** The component list that every prefix test compares. */
  function Key(path: string): seq<string>
    requires CampaignPath(path).Ok?
  {
    Split(TrimSlashes(Trim(CampaignPath(path).value)))
  }

  /** `path` lies under some entry of `allowlist`. */
  ghost predicate Authorized(path: string, allowlist: seq<string>) {
    exists i :: 0 <= i < |allowlist| && PathIsUnderPrefix(path, allowlist[i]) == Ok(true)
  }

  /** For all accepted strings the prefix test is the sequence-prefix relation. */
  lemma UnderPrefixIsKeyPrefix(path: string, prefix: string)
    requires PathIsUnderPrefix(path, prefix).Ok?
    ensures CampaignPath(path).Ok? && CampaignPath(prefix).Ok?
    ensures PathIsUnderPrefix(path, prefix).value <==> Key(prefix) <= Key(path)
  {
    hide CampaignPath;
    var changed := CampaignPath(path).value;
    var allowed := AllowedPath(CampaignPath(prefix).value).value;
    StringPrefixIsPartPrefix(allowed, TrimSlashes(Trim(changed)));
  }

  lemma UnderPrefixTransitive(path: string, middle: string, prefix: string)
    requires PathIsUnderPrefix(path, middle) == Ok(true)
    requires PathIsUnderPrefix(middle, prefix) == Ok(true)
    ensures PathIsUnderPrefix(path, prefix) == Ok(true)
  {
    hide CampaignPath, AllowedPath;
    UnderPrefixIsKeyPrefix(path, middle);
    UnderPrefixIsKeyPrefix(middle, prefix);
    UnderPrefixIsKeyPrefix(path, prefix);
  }

  lemma {:induction false} AllowedPathsAt(values: seq<string>, i: nat)
    requires AllowedPathsFrom(values).Ok? && i < |values|
    ensures |AllowedPathsFrom(values).value| == |values|
    ensures CampaignPath(values[i]).Ok?
    ensures AllowedPath(CampaignPath(values[i]).value) == Ok(AllowedPathsFrom(values).value[i])
  {
    hide CampaignPath, AllowedPath;
    if |values| > 1 {
      AllowedPathsAt(values[1..], if i == 0 then 0 else i - 1);
    } else {
      assert AllowedPathsFrom(values[1..]) == Ok([]);
    }
  }

  lemma {:induction false} CampaignPathsAt(values: seq<string>, i: nat)
    requires CampaignPaths(values).Ok? && i < |values|
    ensures |CampaignPaths(values).value| == |values|
    ensures CampaignPath(values[i]) == Ok(CampaignPaths(values).value[i])
  {
    hide CampaignPath;
    if |values| > 1 {
      CampaignPathsAt(values[1..], if i == 0 then 0 else i - 1);
    } else {
      assert CampaignPaths(values[1..]) == Ok([]);
    }
  }

  lemma AnyAllowsIsAuthorized(path: string, allowlist: seq<string>)
    requires CampaignPath(path).Ok? && AllowedPaths(allowlist).Ok?
    requires AnyAllows(AllowedPaths(allowlist).value, CampaignPath(path).value)
    ensures Authorized(path, allowlist)
  {
    hide CampaignPath, AllowedPath, Allows;
    var allowed := AllowedPaths(allowlist).value;
    AllowedPathsAt(allowlist, 0);
    var i :| 0 <= i < |allowed| && Allows(allowed[i], CampaignPath(path).value);
    AllowedPathsAt(allowlist, i);
    assert PathIsUnderPrefix(path, allowlist[i]) == Ok(true);
  }

  /** The pre-commit review authorises every path it is given. */
  lemma AssertedPathsAreAuthorized(changed: seq<string>, allowlist: seq<string>)
    requires AssertAuthorizedPaths(changed, allowlist).Ok?
    ensures forall p :: p in changed ==> Authorized(p, allowlist)
  {
    hide CampaignPath, AllowedPaths;
    forall p | p in changed
      ensures Authorized(p, allowlist)
    {
      var i :| 0 <= i < |changed| && changed[i] == p;
      CampaignPathsAt(changed, i);
      var normalized := CampaignPaths(changed).value;
      assert normalized[i] !in RejectDisallowed(AllowedPaths(allowlist).value, normalized);
      AnyAllowsIsAuthorized(p, allowlist);
    }
  }

  lemma {:induction false} CoveredIsAuthorized(path: string, permitted: seq<string>)
    requires CoveredByPermitted(path, permitted) == Ok(true)
    ensures Authorized(path, permitted)
  {
    hide PathIsUnderPrefix;
    if PathIsUnderPrefix(path, permitted[0]) != Ok(true) {
      CoveredIsAuthorized(path, permitted[1..]);
      var i :| 0 <= i < |permitted[1..]| && PathIsUnderPrefix(path, permitted[1..][i]) == Ok(true);
      assert permitted[i + 1] == permitted[1..][i];
    }
  }

  lemma {:induction false} AllCoveredAt(paths: seq<string>, permitted: seq<string>, i: nat)
    requires AllCovered(paths, permitted).Ok? && i < |paths|
    ensures Authorized(paths[i], permitted)
  {
    hide CampaignPath, CoveredByPermitted, Authorized;
    if i == 0 {
      CoveredIsAuthorized(paths[0], permitted);
    } else {
      AllCoveredAt(paths[1..], permitted, i - 1);
    }
  }

  /** Step validation and review compose: what a step may touch, the campaign permits. */
  lemma StepAuthorityIsCampaignAuthority(path: string, allowed: seq<string>, required: seq<string>,
                                         permitted: seq<string>)
    requires AssertStepPathsPermitted(allowed, required, permitted).Ok?
    requires Authorized(path, allowed)
    ensures Authorized(path, permitted)
  {
    hide PathIsUnderPrefix, AllCovered;
    var i :| 0 <= i < |allowed| && PathIsUnderPrefix(path, allowed[i]) == Ok(true);
    AllCoveredAt(allowed, permitted, i);
    var j :| 0 <= j < |permitted| && PathIsUnderPrefix(allowed[i], permitted[j]) == Ok(true);
    UnderPrefixTransitive(path, allowed[i], permitted[j]);
  }

  // ---------------------------------------------------------------- anatomy of a campaign path

  function Names(components: seq<Component>): seq<string> {
    if components == [] then
      []
    else
      (if components[0].Normal? then [components[0].part] else []) + Names(components[1..])
  }

  predicate OnlyNormal(components: seq<Component>) {
    forall i :: 0 <= i < |components| ==> components[i].Normal?
  }

  lemma {:induction false} ResolveNormal(components: seq<Component>, stack: seq<string>)
    requires OnlyNormal(components)
    ensures Resolve(components, stack) == Ok(stack + Names(components))
  {
    if components == [] {
      assert stack + Names(components) == stack;
    } else {
      ResolveNormal(components[1..], stack + Names(components[..1]));
      assert Names(components[..1]) == [components[0].part];
      assert stack + [components[0].part] + Names(components[1..]) == stack + Names(components);
    }
  }

  /** A name is a component text: nonempty, slash-free, and neither `.` nor `..`. */
  predicate IsName(s: string) {
    s != "" && s != "." && s != ".." && SlashFree(s)
  }

  predicate AreNames(names: seq<string>) {
    forall i :: 0 <= i < |names| ==> IsName(names[i])
  }

  lemma NamesOfCons(head: Component, tail: seq<Component>)
    ensures Names([head] + tail) == (if head.Normal? then [head.part] else []) + Names(tail)
  {
    assert ([head] + tail)[1..] == tail;
  }

  lemma PartNames(part: string, first: bool)
    requires SlashFree(part)
    ensures |ComponentOf(part, first)| <= 1 && RootDir !in ComponentOf(part, first)
    ensures forall c :: c in ComponentOf(part, first) && c.Normal? ==> IsName(c.part)
  {
  }

  lemma {:induction false} ComponentNamesAreNames(parts: seq<string>, first: bool)
    requires forall i :: 0 <= i < |parts| ==> SlashFree(parts[i])
    ensures AreNames(Names(ComponentsOf(parts, first)))
    ensures RootDir !in ComponentsOf(parts, first)
  {
    if parts != [] {
      assert SlashFree(parts[0]);
      PartNames(parts[0], first);
      hide SlashFree, Names, IsName, ComponentOf;
      ComponentNamesAreNames(parts[1..], false);
      var head, tail := ComponentOf(parts[0], first), ComponentsOf(parts[1..], false);
      if head == [] {
        assert head + tail == tail;
      } else {
        assert head == [head[0]];
        NamesOfCons(head[0], tail);
      }
    }
  }

  lemma {:induction false} ComponentsOfNames(names: seq<string>, first: bool)
    requires AreNames(names)
    ensures Names(ComponentsOf(names, first)) == names
    ensures OnlyNormal(ComponentsOf(names, first))
  {
    if names != [] {
      ComponentsOfNames(names[1..], false);
      assert IsName(names[0]);
      assert ComponentsOf(names, first)[1..] == ComponentsOf(names[1..], false);
      assert names == [names[0]] + names[1..];
    }
  }

  /** Components of a canonical text are its parts again. */
  lemma ComponentsOfJoin(names: seq<string>)
    requires names != [] && AreNames(names)
    ensures Split(Join(names)) == names && Join(names) != "" && !IsAbsolute(Join(names))
    ensures Names(Components(Join(names))) == names
    ensures OnlyNormal(Components(Join(names)))
  {
    assert forall i :: 0 <= i < |names| ==> IsName(names[i]) ==> SlashFree(names[i]);
    SplitJoin(names);
    ComponentsOfNames(names, true);
    assert IsName(names[0]);
    assert Join(names)[0] == names[0][0];
    assert Components(Join(names)) == ComponentsOf(names, true);
  }

  /** The names of the raw text; `CampaignPath` is a function of them alone. */
  function RawNames(raw: string): seq<string> {
    Names(Components(Trim(raw)))
  }

  lemma NormalUnless(components: seq<Component>)
    requires RootDir !in components && CurDir !in components && ParentDir !in components
    ensures OnlyNormal(components)
  {
  }

  lemma CampaignPathAnatomy(raw: string)
    requires CampaignPath(raw).Ok?
    ensures RawNames(raw) != [] && AreNames(RawNames(raw))
    ensures AllowedPath(Join(RawNames(raw))) == CampaignPath(raw)
    ensures !IsWhitespace(Join(RawNames(raw))[0])
  {
    hide IsWhitespace, AllowedPath, TrimStart, TrimEnd;
    var t := Trim(raw);
    TrimFacts(raw);
    TrimFixed(t);
    var components := Components(t);
    SplitParts(t);
    ComponentNamesAreNames(Split(t), true);
    assert components == ComponentsOf(Split(t), true);
    NormalUnless(components);
    ResolveNormal(components, []);
    assert [] + Names(components) == Names(components);
    assert RelativeRequest(t) == Ok(t);
    FirstName(t);
  }

  /** A relative text with only normal components starts with its first name. */
  lemma FirstName(t: string)
    requires t != "" && !IsAbsolute(t) && OnlyNormal(Components(t))
    ensures Names(Components(t)) != [] && Join(Names(Components(t))) != ""
    ensures Join(Names(Components(t)))[0] == t[0]
  {
    var parts := Split(t);
    assert parts[0] != "" && parts[0][0] == t[0];
    var head := ComponentOf(parts[0], true);
    assert Components(t) == head + ComponentsOf(parts[1..], false);
    assert Components(t)[0] == head[0] && head[0].Normal?;
    assert Names(Components(t))[0] == parts[0];
  }

  // ---------------------------------------------------------------- what the list tests answer

  /** The first `k` texts parse as campaign paths. */
  predicate Parse(paths: seq<string>, k: nat) {
    k <= |paths| && forall j :: 0 <= j < k ==> CampaignPath(paths[j]).Ok?
  }

  /** Something changed under `required`. */
  ghost predicate ChangedUnder(changed: seq<string>, required: string) {
    exists k :: 0 <= k < |changed| && PathIsUnderPrefix(changed[k], required) == Ok(true)
  }

  /** The `k`-th change lies under `required`, and everything in front of it parses. */
  ghost predicate SatisfiedAt(changed: seq<string>, required: string, k: int) {
    && 0 <= k < |changed|
    && PathIsUnderPrefix(changed[k], required) == Ok(true)
    && forall j :: 0 <= j < k ==> CampaignPath(changed[j]).Ok?
  }

  /** A required path is satisfied exactly by a change under it that the scan gets to. */
  lemma RequiredPrefixMeans(changed: seq<string>, required: string)
    ensures RequiredPrefixSatisfied(changed, required) == Ok(true) <==> exists k :: SatisfiedAt(changed, required, k)
    ensures RequiredPrefixSatisfied(changed, required) == Ok(true) ==> ChangedUnder(changed, required)
  {
    hide CampaignPath, AllowedPath, Allows;
    if RequiredPrefixSatisfied(changed, required) == Ok(true) {
      var k := FindUnder(changed, required);
      assert SatisfiedAt(changed, required, k);
    }
    if k :| SatisfiedAt(changed, required, k) {
      UnderIsFound(changed, required, k);
    }
  }

  lemma {:induction false} FindUnder(changed: seq<string>, required: string) returns (k: nat)
    requires RequiredPrefixSatisfied(changed, required) == Ok(true)
    ensures SatisfiedAt(changed, required, k)
  {
    hide CampaignPath, AllowedPath, Allows;
    if PathIsUnderPrefix(changed[0], required) == Ok(true) {
      k := 0;
    } else {
      k := FindUnder(changed[1..], required);
      k := k + 1;
    }
  }

  lemma {:induction false} UnderIsFound(changed: seq<string>, required: string, k: nat)
    requires SatisfiedAt(changed, required, k)
    ensures RequiredPrefixSatisfied(changed, required) == Ok(true)
  {
    hide CampaignPath, AllowedPath, Allows;
    if k > 0 {
      assert CampaignPath(changed[0]).Ok?;
      UnderIsFound(changed[1..], required, k - 1);
    }
  }

  /** For a list that parses, that is any change under it. */
  lemma RequiredPrefixIff(changed: seq<string>, required: string)
    requires Parse(changed, |changed|)
    ensures RequiredPrefixSatisfied(changed, required) == Ok(true) <==> ChangedUnder(changed, required)
  {
    hide CampaignPath, AllowedPath, PathIsUnderPrefix, RequiredPrefixSatisfied;
    RequiredPrefixMeans(changed, required);
    if ChangedUnder(changed, required) {
      var k :| 0 <= k < |changed| && PathIsUnderPrefix(changed[k], required) == Ok(true);
      assert SatisfiedAt(changed, required, k);
    }
  }

  /** The answer about a path, where there is one, is whether it lies under an entry. */
  lemma PathIsAuthorizedMeans(path: string, allowlist: seq<string>)
    requires PathIsAuthorized(path, allowlist).Ok?
    ensures PathIsAuthorized(path, allowlist).value <==> Authorized(path, allowlist)
  {
    hide CampaignPath, AllowedPath;
    var allowed := AllowedPaths(allowlist).value;
    if AnyAllows(allowed, CampaignPath(path).value) {
      AnyAllowsIsAuthorized(path, allowlist);
    } else if Authorized(path, allowlist) {
      AuthorizedIsAllowed(path, allowlist);
    }
  }

  lemma AuthorizedIsAllowed(path: string, allowlist: seq<string>)
    requires AllowedPaths(allowlist).Ok? && Authorized(path, allowlist)
    ensures CampaignPath(path).Ok? && AnyAllows(AllowedPaths(allowlist).value, CampaignPath(path).value)
  {
    hide CampaignPath, AllowedPath, Allows;
    var i :| 0 <= i < |allowlist| && PathIsUnderPrefix(path, allowlist[i]) == Ok(true);
    AllowedPathsAt(allowlist, i);
    assert Allows(AllowedPaths(allowlist).value[i], CampaignPath(path).value);
  }

  /** A change list passes exactly if the allow list parses and every change parses and lies under
      an entry of it. */
  lemma AssertedIff(changed: seq<string>, allowlist: seq<string>)
    ensures AssertAuthorizedPaths(changed, allowlist).Ok? <==>
      AllowedPaths(allowlist).Ok? && Parse(changed, |changed|) && forall p :: p in changed ==> Authorized(p, allowlist)
  {
    hide CampaignPath, AllowedPath, AllowedPaths, AnyAllows;
    CampaignPathsParse(changed);
    if AssertAuthorizedPaths(changed, allowlist).Ok? {
      AssertedPathsAreAuthorized(changed, allowlist);
    } else if AllowedPaths(allowlist).Ok? && Parse(changed, |changed|) {
      var normalized := CampaignPaths(changed).value;
      var rejected := RejectDisallowed(AllowedPaths(allowlist).value, normalized);
      assert rejected[0] in rejected;
      var i :| 0 <= i < |normalized| && normalized[i] == rejected[0];
      CampaignPathsAt(changed, i);
      if Authorized(changed[i], allowlist) {
        AuthorizedIsAllowed(changed[i], allowlist);
      }
      assert changed[i] in changed;
    }
  }

  lemma {:induction false} CampaignPathsParse(paths: seq<string>)
    ensures CampaignPaths(paths).Ok? <==> Parse(paths, |paths|)
    ensures CampaignPaths(paths).Ok? ==> |CampaignPaths(paths).value| == |paths|
  {
    hide CampaignPath;
    if paths != [] {
      CampaignPathsParse(paths[1..]);
      assert forall k :: 0 < k < |paths| ==> paths[k] == paths[1..][k - 1];
    }
  }

  /** A step's paths pass validation exactly if each of them parses and is covered. */
  lemma StepPathsPermittedIff(allowed: seq<string>, required: seq<string>, permitted: seq<string>)
    ensures AssertStepPathsPermitted(allowed, required, permitted).Ok? <==>
      forall p :: p in allowed || p in required ==>
        CampaignPath(p).Ok? && CoveredByPermitted(p, permitted) == Ok(true)
  {
    hide CampaignPath, CoveredByPermitted;
    AllCoveredIff(allowed, permitted);
    AllCoveredIff(required, permitted);
  }

  lemma {:induction false} AllCoveredIff(paths: seq<string>, permitted: seq<string>)
    ensures AllCovered(paths, permitted).Ok? <==>
      forall p :: p in paths ==> CampaignPath(p).Ok? && CoveredByPermitted(p, permitted) == Ok(true)
  {
    hide CampaignPath, CoveredByPermitted;
    if paths != [] {
      AllCoveredIff(paths[1..], permitted);
      assert paths == [paths[0]] + paths[1..];
    }
  }

  /** The `k`-th entry covers the path, and everything in front of it parses. */
  ghost predicate CoveredAt(path: string, permitted: seq<string>, k: int) {
    && 0 <= k < |permitted|
    && PathIsUnderPrefix(path, permitted[k]) == Ok(true)
    && forall j :: 0 <= j < k ==> PathIsUnderPrefix(path, permitted[j]).Ok?
  }

  /** A path is covered exactly by a permitted entry that the scan gets to. */
  lemma CoveredIff(path: string, permitted: seq<string>)
    ensures CoveredByPermitted(path, permitted) == Ok(true) <==> exists k :: CoveredAt(path, permitted, k)
  {
    hide PathIsUnderPrefix;
    if CoveredByPermitted(path, permitted) == Ok(true) {
      var k := FindCover(path, permitted);
      assert CoveredAt(path, permitted, k);
    }
    if k :| CoveredAt(path, permitted, k) {
      CoverIsFound(path, permitted, k);
    }
  }

  lemma {:induction false} FindCover(path: string, permitted: seq<string>) returns (k: nat)
    requires CoveredByPermitted(path, permitted) == Ok(true)
    ensures CoveredAt(path, permitted, k)
  {
    hide PathIsUnderPrefix;
    if PathIsUnderPrefix(path, permitted[0]) == Ok(true) {
      k := 0;
    } else {
      k := FindCover(path, permitted[1..]);
      k := k + 1;
    }
  }

  lemma {:induction false} CoverIsFound(path: string, permitted: seq<string>, k: nat)
    requires CoveredAt(path, permitted, k)
    ensures CoveredByPermitted(path, permitted) == Ok(true)
  {
    hide PathIsUnderPrefix;
    if k > 0 {
      assert PathIsUnderPrefix(path, permitted[0]).Ok?;
      CoverIsFound(path, permitted[1..], k - 1);
    }
  }

  // ---------------------------------------------------------------- which texts and lists are refused

  /** An allowed path is any text that is not blank, absolute or climbing; NUL ends it. */
  lemma AllowedPathDomain(value: string)
    ensures AllowedPath(value).Ok? <==>
      Trim(value) != "" && !IsAbsolute(Trim(value)) && '\0' !in Trim(value) && ".." !in Split(Trim(value))
  {
    ComponentsMean(Trim(value));
    hide Split, Components, Trim;
  }

  /** The text is a campaign path whose canonical form is an allowed path once more. */
  predicate Usable(value: string) {
    CampaignPath(value).Ok? && AllowedPath(CampaignPath(value).value).Ok?
  }

  /** A list of allowed paths has an entry, and every entry is usable. */
  lemma AllowedPathsDomain(values: seq<string>)
    ensures AllowedPaths(values).Ok? <==> values != [] && forall k :: 0 <= k < |values| ==> Usable(values[k])
  {
    AllowedPathsFromDomain(values);
    hide Usable, AllowedPathsFrom;
  }

  lemma {:induction false} AllowedPathsFromDomain(values: seq<string>)
    ensures AllowedPathsFrom(values).Ok? <==> forall k :: 0 <= k < |values| ==> Usable(values[k])
    ensures AllowedPathsFrom(values).Ok? ==> |AllowedPathsFrom(values).value| == |values|
  {
    hide CampaignPath, AllowedPath;
    if values != [] {
      AllowedPathsFromDomain(values[1..]);
      assert Usable(values[0]) <==> CampaignPath(values[0]).Ok? && AllowedPath(CampaignPath(values[0]).value).Ok?;
      assert values == [values[0]] + values[1..];
      hide Usable;
    }
  }
}
