/** The exact domain and range of `WorkspacePath::parse`, and its round trip. */
module WorkspacePaths {
  import opened Wrappers
  import opened Paths
  import opened PathAuthority
  import opened CanonicalPaths

  /** Depth below the workspace root reached by walking the components. */
  function Height(components: seq<Component>): int {
    if components == [] then
      0
    else
      Height(components[..|components| - 1]) +
      match components[|components| - 1]
      case Normal(_) => 1
      case ParentDir => -1
      case _ => 0
  }

  ghost predicate NeverAbove(components: seq<Component>, depth: int) {
    forall k :: 0 <= k <= |components| ==> depth + Height(components[..k]) >= 0
  }

  lemma {:induction false} HeightStep(components: seq<Component>)
    requires components != []
    ensures Height(components) == Height(components[..1]) + Height(components[1..])
  {
    if |components| == 1 {
      assert components[..1] == components;
    } else {
      var front := components[..|components| - 1];
      HeightStep(front);
      assert front[..1] == components[..1];
      assert components[1..][..|components[1..]| - 1] == front[1..];
    }
  }

  lemma NeverAboveStep(components: seq<Component>, depth: int)
    requires components != [] && depth >= 0
    ensures NeverAbove(components, depth) <==> NeverAbove(components[1..], depth + Height(components[..1]))
  {
    hide Height;
    assert components[..0] == [] && Height(components[..0]) == 0 by { EmptyHeight(); }
    var d := depth + Height(components[..1]);
    forall k | 1 <= k <= |components|
      ensures depth + Height(components[..k]) == d + Height(components[1..][..k - 1])
    {
      HeightStep(components[..k]);
      assert components[..k][..1] == components[..1];
      assert components[..k][1..] == components[1..][..k - 1];
    }
    if NeverAbove(components, depth) {
      forall j | 0 <= j <= |components[1..]|
        ensures d + Height(components[1..][..j]) >= 0
      {
        assert depth + Height(components[..j + 1]) >= 0;
      }
    }
  }

  lemma EmptyHeight()
    ensures Height([]) == 0
  {
  }

  /** The stack walk succeeds exactly when it never climbs above the root. */
  lemma {:induction false} ResolveDomain(components: seq<Component>, stack: seq<string>)
    ensures Resolve(components, stack).Ok? <==> RootDir !in components && NeverAbove(components, |stack|)
    ensures Resolve(components, stack).Ok? ==>
      |Resolve(components, stack).value| == |stack| + Height(components)
  {
    if components == [] {
      EmptyHeight();
      assert components[..0] == [];
    } else {
      NeverAboveStep(components, |stack|);
      HeightStep(components);
      assert components[..1] == [components[0]];
      assert components[..1][..0] == [];
      var rest := components[1..];
      assert RootDir in components <==> components[0] == RootDir || RootDir in rest;
      match components[0] {
        case CurDir => ResolveDomain(rest, stack);
        case Normal(part) => ResolveDomain(rest, stack + [part]);
        case ParentDir =>
          if stack != [] {
            ResolveDomain(rest, stack[..|stack| - 1]);
          } else {
            assert rest[..0] == [];
            assert !NeverAbove(rest, -1);
          }
        case RootDir =>
      }
    }
  }

  /** `parse` succeeds exactly on requests that stay inside the workspace and below its root. */
  lemma WorkspacePathDomain(requested: string)
    ensures WorkspacePath(requested).Ok? <==>
      && RelativeRequest(requested).Ok?
      && var components := Components(RelativeRequest(requested).value);
      && RootDir !in components
      && NeverAbove(components, 0)
      && Height(components) > 0
  {
    hide Components, RelativeRequest, NeverAbove;
    if RelativeRequest(requested).Ok? {
      ResolveDomain(Components(RelativeRequest(requested).value), []);
    }
  }

  // ---------------------------------------------------------------- the range

  lemma {:induction false} ResolveKeepsNames(components: seq<Component>, stack: seq<string>)
    requires AreNames(Names(components)) && AreNames(stack) && Resolve(components, stack).Ok?
    ensures AreNames(Resolve(components, stack).value)
  {
    if components != [] {
      var rest := components[1..];
      match components[0] {
        case CurDir =>
          assert Names(components) == Names(rest);
          ResolveKeepsNames(rest, stack);
        case Normal(part) =>
          assert Names(components)[0] == part && Names(components)[1..] == Names(rest);
          assert IsName(part);
          ResolveKeepsNames(rest, stack + [part]);
        case ParentDir =>
          assert Names(components) == Names(rest);
          ResolveKeepsNames(rest, stack[..|stack| - 1]);
        case RootDir =>
      }
    }
  }

  /** The parts `parse` joins. */
  function ResolvedNames(requested: string): seq<string>
    requires WorkspacePath(requested).Ok?
  {
    Resolve(Components(RelativeRequest(requested).value), []).value
  }

  lemma ComponentNames(s: string)
    ensures AreNames(Names(Components(s)))
  {
    SplitParts(s);
    ComponentNamesAreNames(Split(s), true);
    if IsAbsolute(s) {
      NamesConcat([RootDir], ComponentsOf(Split(s), true));
      assert Names([RootDir]) == [];
      assert [] + Names(ComponentsOf(Split(s), true)) == Names(ComponentsOf(Split(s), true));
    } else {
      assert Components(s) == ComponentsOf(Split(s), true);
    }
  }

  /** A parsed path is a nonempty list of names: no `.`, no `..`, no empty part, not absolute. */
  lemma WorkspacePathRange(requested: string)
    requires WorkspacePath(requested).Ok?
    ensures var r := WorkspacePath(requested).value;
      Split(r) == ResolvedNames(requested) && AreNames(Split(r)) && OnlyNormal(Components(r)) &&
      Names(Components(r)) == Split(r) && r != "" && !IsAbsolute(r)
  {
    hide RelativeRequest, Split, Join, Components;
    var components := Components(RelativeRequest(requested).value);
    ComponentNames(RelativeRequest(requested).value);
    ResolveKeepsNames(components, []);
    ComponentsOfJoin(ResolvedNames(requested));
  }

  // ---------------------------------------------------------------- the round trip

  function Weight(names: seq<string>): nat {
    if names == [] then 0 else Weight(names[..|names| - 1]) + |names[|names| - 1]| + 1
  }

  lemma {:induction false} WeightConcat(xs: seq<string>, ys: seq<string>)
    ensures Weight(xs + ys) == Weight(xs) + Weight(ys)
  {
    if ys == [] {
      assert xs + ys == xs;
    } else {
      assert (xs + ys)[..|xs + ys| - 1] == xs + ys[..|ys| - 1];
      WeightConcat(xs, ys[..|ys| - 1]);
    }
  }

  lemma {:induction false} JoinWeight(names: seq<string>)
    requires names != []
    ensures |Join(names)| + 1 == Weight(names)
  {
    assert names == [names[0]] + names[1..];
    WeightConcat([names[0]], names[1..]);
    assert [names[0]][..0] == [];
    if |names| > 1 {
      JoinWeight(names[1..]);
    } else {
      assert names[1..] == [];
    }
  }

  lemma {:induction false} ResolveNoHeavier(components: seq<Component>, stack: seq<string>)
    requires Resolve(components, stack).Ok?
    ensures Weight(Resolve(components, stack).value) <= Weight(stack) + Weight(Names(components))
  {
    if components != [] {
      var rest := components[1..];
      match components[0] {
        case CurDir =>
          assert Names(components) == Names(rest);
          ResolveNoHeavier(rest, stack);
        case Normal(part) =>
          WeightConcat([part], Names(rest));
          WeightConcat(stack, [part]);
          ResolveNoHeavier(rest, stack + [part]);
        case ParentDir =>
          assert Names(components) == Names(rest);
          ResolveNoHeavier(rest, stack[..|stack| - 1]);
        case RootDir =>
      }
    }
  }

  /** Resolving never makes a relative text longer. */
  lemma ResolveNoLonger(s: string)
    requires !IsAbsolute(s) && Resolve(Components(s), []).Ok? && Resolve(Components(s), []).value != []
    ensures |Join(Resolve(Components(s), []).value)| <= |s|
  {
    hide Join, Split, Resolve;
    ResolveNoHeavier(Components(s), []);
    JoinSplit(s);
    NamesNoLonger(Split(s), true);
    assert Components(s) == ComponentsOf(Split(s), true);
    var names := Names(Components(s));
    JoinWeight(Resolve(Components(s), []).value);
    if names != [] {
      JoinWeight(names);
    }
  }

  lemma MountedRequest(r: string)
    requires r != ""
    ensures Trim(ContainerPath(r)) == WORKSPACE_MOUNT + "/" + TrimEnd(r)
  {
    var lead := WORKSPACE_MOUNT + "/";
    assert lead[0] == '/' && lead[|lead| - 1] == '/';
    assert ContainerPath(r)[0] == '/';
    hide TrimStart, TrimEnd;
    TrimFacts(ContainerPath(r));
    TrimEndBehind(lead, r);
    TrimEndFacts(lead);
  }

  lemma MountedRelative(r: string)
    requires r != ""
    ensures RelativeRequest(ContainerPath(r)) == if TrimEnd(r) == "" then Err(false) else Ok(TrimEnd(r))
  {
    MountedRequest(r);
    hide Trim, TrimEnd;
    var t := Trim(ContainerPath(r));
    if TrimEnd(r) != "" {
      assert t == WORKSPACE_MOUNT + "/" + TrimEnd(r);
      assert |t| > |WORKSPACE_MOUNT| + 1;
      assert t[|WORKSPACE_MOUNT| + 1..] == TrimEnd(r);
      assert WORKSPACE_MOUNT + "/" <= t;
    }
  }

  /** Parsing a container path gives back the same path exactly when its end needs no trimming. */
  lemma ContainerPathRoundTrip(requested: string)
    requires WorkspacePath(requested).Ok?
    ensures var r := WorkspacePath(requested).value;
      WorkspacePath(ContainerPath(r)) == Ok(r) <==> !EndsInWhitespace(r)
  {
    var r := WorkspacePath(requested).value;
    WorkspacePathRange(requested);
    hide IsWhitespace, TrimEnd, RelativeRequest, ContainerPath, Split, Components, Join, Resolve;
    MountedRelative(r);
    TrimEndFacts(r);
    var names := Split(r);
    JoinSplit(r);
    if !EndsInWhitespace(r) {
      ResolveNormal(Components(r), []);
      assert [] + names == names;
    } else if TrimEnd(r) != "" {
      var t := TrimEnd(r);
      assert !IsAbsolute(t);
      if Resolve(Components(t), []).Ok? && Resolve(Components(t), []).value != [] {
        ResolveNoLonger(t);
      }
    }
  }

  /** It does not for `a / /`, whose path `a / ` ends in a blank name. */
  lemma BlankNameIsLost()
    ensures WorkspacePath("a / /") == Ok("a / ")
    ensures WorkspacePath(ContainerPath("a / ")) != Ok("a / ")
  {
    hide WorkspacePath, ContainerPath, Trim, Components;
    BlankExample("a / /");
    FirstPassJoins("a / /");
    ContainerPathRoundTrip("a / /");
    assert EndsInWhitespace("a / ");
  }

  // ---------------------------------------------------------------- laws of resolution

  lemma {:induction false} ResolveThrough(xs: seq<Component>, ys: seq<Component>, stack: seq<string>)
    ensures Resolve(xs + ys, stack) ==
      if Resolve(xs, stack).Ok? then Resolve(ys, Resolve(xs, stack).value) else Err(false)
    decreases |xs|
  {
    if xs == [] {
      assert xs + ys == ys;
    } else {
      assert (xs + ys)[0] == xs[0] && (xs + ys)[1..] == xs[1..] + ys;
      match xs[0]
      case CurDir => ResolveThrough(xs[1..], ys, stack);
      case Normal(part) => ResolveThrough(xs[1..], ys, stack + [part]);
      case ParentDir =>
        if stack != [] {
          ResolveThrough(xs[1..], ys, stack[..|stack| - 1]);
        }
      case RootDir =>
    }
  }

  /** A name and the `..` behind it cancel, wherever they stand. */
  lemma ParentCancels(xs: seq<Component>, part: string, ys: seq<Component>, stack: seq<string>)
    ensures Resolve(xs + [Normal(part), ParentDir] + ys, stack) == Resolve(xs + ys, stack)
  {
    var pair := [Normal(part), ParentDir];
    assert xs + pair + ys == xs + (pair + ys);
    ResolveThrough(xs, pair + ys, stack);
    ResolveThrough(xs, ys, stack);
    if Resolve(xs, stack).Ok? {
      var s := Resolve(xs, stack).value;
      assert (pair + ys)[0] == Normal(part) && (pair + ys)[1..] == [ParentDir] + ys;
      assert ([ParentDir] + ys)[0] == ParentDir && ([ParentDir] + ys)[1..] == ys;
      assert (s + [part])[..|s + [part]| - 1] == s;
    }
  }

  /** A `.` changes nothing, wherever it stands. */
  lemma CurDirIsIgnored(xs: seq<Component>, ys: seq<Component>, stack: seq<string>)
    ensures Resolve(xs + [CurDir] + ys, stack) == Resolve(xs + ys, stack)
  {
    assert xs + [CurDir] + ys == xs + ([CurDir] + ys);
    ResolveThrough(xs, [CurDir] + ys, stack);
    ResolveThrough(xs, ys, stack);
    assert ([CurDir] + ys)[0] == CurDir && ([CurDir] + ys)[1..] == ys;
  }

  /** A request is relative as it is, or absolute below the mount; nothing else gets further. */
  lemma RelativeRequestMeans(requested: string, relative: string)
    ensures RelativeRequest(requested) == Ok(relative) <==>
      relative != "" && (Trim(requested) == "/workspace" + "/" + relative
        || (Trim(requested) == relative && !IsAbsolute(relative)))
  {
    hide Trim;
    var t := Trim(requested);
    assert WORKSPACE_MOUNT == "/workspace" && |WORKSPACE_MOUNT| == 10;
    if t == "/workspace" + "/" + relative {
      assert t[11..] == relative && IsAbsolute(t);
    }
    if WORKSPACE_MOUNT + "/" <= t {
      assert t == WORKSPACE_MOUNT + "/" + t[11..] && IsAbsolute(t);
    }
  }
}
