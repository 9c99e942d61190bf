/**
 When one pass of canonicalisation is enough. `parse_campaign_path` trims the whole text
 before splitting it and the joined result again afterwards, so a component that ends in
 white space can be rewritten a second time.
 */
module CanonicalPaths {
  import opened Wrappers
  import opened Paths
  import opened PathAuthority

  lemma {:induction false} ComponentsOfConcat(xs: seq<string>, ys: seq<string>, first: bool)
    ensures ComponentsOf(xs + ys, first) == ComponentsOf(xs, first) + ComponentsOf(ys, first && xs == [])
  {
    if xs == [] {
      assert xs + ys == ys;
    } else {
      assert (xs + ys)[1..] == xs[1..] + ys;
      ComponentsOfConcat(xs[1..], ys, false);
    }
  }

  lemma {:induction false} NamesConcat(xs: seq<Component>, ys: seq<Component>)
    ensures Names(xs + ys) == Names(xs) + Names(ys)
  {
    if xs == [] {
      assert xs + ys == ys;
    } else {
      assert (xs + ys)[1..] == xs[1..] + ys;
      NamesConcat(xs[1..], ys);
    }
  }

  /** Everything in front of the last part of a joined text. */
  function Lead(front: seq<string>): string {
    if front == [] then "" else Join(front) + "/"
  }

  lemma JoinLast(front: seq<string>, last: string)
    ensures Join(front + [last]) == Lead(front) + last
  {
    if front == [] {
      assert front + [last] == [last];
    } else {
      JoinConcat(front, [last]);
    }
  }

  lemma JoinEnd(names: seq<string>)
    requires names != [] && AreNames(names)
    ensures Join(names) != "" && Join(names)[|Join(names)| - 1] != '/'
    ensures EndsInWhitespace(Join(names)) <==> EndsInWhitespace(names[|names| - 1])
  {
    hide IsWhitespace;
    var last := names[|names| - 1];
    assert names == names[..|names| - 1] + [last];
    JoinLast(names[..|names| - 1], last);
    assert IsName(last);
    assert Join(names)[|Join(names)| - 1] == last[|last| - 1];
  }

  /** A joined text that needs no trimming is its own canonical form. */
  lemma Canonical(names: seq<string>)
    requires names != [] && AreNames(names)
    requires !IsWhitespace(Join(names)[0]) && !EndsInWhitespace(Join(names)) && '\0' !in Join(names)
    ensures CampaignPath(Join(names)) == Ok(Join(names))
  {
    hide IsWhitespace, TrimStart, TrimEnd, Join, EndsInWhitespace;
    var r := Join(names);
    ComponentsOfJoin(names);
    TrimFixed(r);
    JoinEnd(names);
    TrimSlashesFacts(r);
    ResolveNormal(Components(r), []);
    assert [] + names == names;
    assert RelativeRequest(r) == Ok(r);
    assert forall i :: 0 <= i < |Components(r)| ==> Components(r)[i].Normal?;
    assert WorkspacePath(r) == Ok(r);
    assert AllowedPath(r) == Ok(r);
  }

  lemma {:induction false} NamesNoLonger(parts: seq<string>, first: bool)
    ensures |Join(Names(ComponentsOf(parts, first)))| <= |Join(parts)|
    ensures parts == [] ==> Names(ComponentsOf(parts, first)) == []
  {
    if parts != [] {
      NamesNoLonger(parts[1..], false);
      var head := ComponentOf(parts[0], first);
      NamesConcat(head, ComponentsOf(parts[1..], false));
      var rest := Names(ComponentsOf(parts[1..], false));
      if head != [] && head[0].Normal? {
        assert Names(head) == [parts[0]];
        assert ([parts[0]] + rest)[1..] == rest;
      } else {
        assert Names(head) == [];
        assert [] + rest == rest;
      }
    }
  }

  /** A second pass never grows the text, and shrinks one that ends in white space. */
  lemma SecondPassNoLonger(r: string)
    requires CampaignPath(r).Ok?
    ensures |CampaignPath(r).value| <= |Join(RawNames(r))| <= |Trim(r)|
    ensures EndsInWhitespace(r) ==> |Trim(r)| < |r|
  {
    hide IsWhitespace, TrimStart, TrimEnd, Join;
    CampaignPathAnatomy(r);
    var j := Join(RawNames(r));
    TrimFacts(j);
    TrimSlashesFacts(Trim(j));
    var t := Trim(r);
    JoinSplit(t);
    NamesNoLonger(Split(t), true);
    assert Components(t) == ComponentsOf(Split(t), true) by {
      assert !IsAbsolute(t);
    }
    TrimShortens(r);
  }

  lemma TrimShortens(r: string)
    ensures EndsInWhitespace(r) ==> |Trim(r)| < |r|
  {
    hide IsWhitespace, TrimStart, TrimEnd;
    TrimFacts(r);
    if EndsInWhitespace(r) {
      TrimStartFacts(r);
      TrimEndFacts(TrimStart(r));
      if TrimStart(r) != "" {
        assert EndsInWhitespace(TrimStart(r));
      }
    }
  }

  /** Decided from the components of the raw text, before anything is canonicalised. */
  predicate Settled(names: seq<string>)
    requires names != []
  {
    var last := names[|names| - 1];
    || !EndsInWhitespace(last)
    || (TrimEnd(last) != "" && TrimEnd(last) != ".")
    || (TrimEnd(last) == "" && |names| > 1 && !EndsInWhitespace(names[|names| - 2]))
  }

  /** What trimming leaves of `names` when the last one ends in white space. */
  function Trimmed(names: seq<string>): seq<string>
    requires names != []
  {
    var front, word := names[..|names| - 1], TrimEnd(names[|names| - 1]);
    if word == "" then front else front + [word]
  }

  lemma SplitDotted(front: seq<string>, last: string)
    requires AreNames(front) && (last == "." || last == "..")
    ensures var r := Join(front + [last]);
      Split(r) == front + [last] &&
      (!IsAbsolute(r) ==> Components(r) == ComponentsOf(front, true) + ComponentOf(last, front == []))
  {
    hide Join;
    assert forall i :: 0 <= i < |front| ==> IsName(front[i]) ==> SlashFree(front[i]);
    SplitJoin(front + [last]);
    ComponentsOfConcat(front, [last], true);
    assert [last][1..] == [];
    assert ComponentsOf([last], front == []) == ComponentOf(last, front == []);
  }

  lemma JoinStart(front: seq<string>, last: string)
    requires AreNames(front) && last != "" && last[0] != '/'
    ensures Join(front + [last]) != "" && !IsAbsolute(Join(front + [last]))
  {
    if front != [] {
      assert IsName(front[0]);
      assert (front + [last])[0] == front[0];
    } else {
      assert front + [last] == [last];
    }
  }

  /** A final `..` is refused by the second trim's check. */
  lemma ParentEndRefused(front: seq<string>)
    requires AreNames(front)
    ensures ParentDir in Components(Join(front + [".."]))
  {
    hide Join;
    SplitDotted(front, "..");
    JoinStart(front, "..");
    var components := Components(Join(front + [".."]));
    assert components[|components| - 1] == ParentDir;
  }

  /** A final `.` is refused or dropped by a second pass. */
  lemma DotEndUnsettled(front: seq<string>)
    requires AreNames(front) && !IsWhitespace(Join(front + ["."])[0])
    ensures CampaignPath(Join(front + ["."])) != Ok(Join(front + ["."]))
  {
    hide Join, TrimStart, TrimEnd, WorkspacePath, AllowedPath;
    var r := Join(front + ["."]);
    SplitDotted(front, ".");
    JoinStart(front, ".");
    JoinLast(front, ".");
    assert r[|r| - 1] == '.';
    TrimFixed(r);
    if front == [] {
      assert Components(r)[0] == CurDir;
    } else if CampaignPath(r).Ok? {
      SecondPassNoLonger(r);
      ComponentsOfNames(front, true);
      assert Components(r) == ComponentsOf(front, true);
      assert |Join(front)| < |r|;
    }
  }

  /** Names joined for a prefix test; the last one is still to be trimmed. */
  predicate Joinable(names: seq<string>) {
    && names != []
    && AreNames(names[..|names| - 1])
    && SlashFree(names[|names| - 1]) && names[|names| - 1] != ""
    && Join(names) != "" && !IsWhitespace(Join(names)[0])
  }

  /** Trimming the joined text trims the last name, or drops it with its slash. */
  lemma TrimJoined(names: seq<string>)
    requires Joinable(names)
    ensures Trimmed(names) != [] && TrimSlashes(Trim(Join(names))) == Join(Trimmed(names)) != ""
    ensures Trim(Join(names)) == Join(Trimmed(names)) + if TrimEnd(names[|names| - 1]) == "" then "/" else ""
  {
    hide IsWhitespace, TrimStart, TrimEnd, Join, SlashFree;
    var front, last := names[..|names| - 1], names[|names| - 1];
    var word := TrimEnd(last);
    assert names == front + [last];
    JoinLast(front, last);
    TrimFacts(Join(names));
    TrimEndBehind(Lead(front), last);
    if word == "" {
      assert front != [] by {
        if front == [] {
          BlankStart(last);
          assert false;
        }
      }
      AllSpaceEnd(front);
    } else {
      JoinLast(front, word);
      TrimmedSlashFree(last);
      LastNotSlash(word);
      TrimSlashesFacts(Join(front + [word]));
    }
  }

  lemma BlankStart(s: string)
    requires s != "" && !IsWhitespace(s[0])
    ensures TrimEnd(s) != ""
  {
    hide IsWhitespace, TrimEnd;
    TrimEndFacts(s);
  }

  lemma LastNotSlash(name: string)
    requires SlashFree(name) && name != ""
    ensures name[|name| - 1] != '/'
  {
  }

  /** The canonical text of `raw`, in terms of the components of `raw`. */
  lemma CanonicalText(raw: string)
    requires CampaignPath(raw).Ok?
    ensures var names := RawNames(raw);
      names != [] && Trimmed(names) != [] && CampaignPath(raw).value == Join(Trimmed(names)) &&
      TrimEnd(names[|names| - 1]) != ".." && Join(Trimmed(names)) != "" && !IsWhitespace(Join(Trimmed(names))[0])
  {
    hide IsWhitespace, TrimStart, TrimEnd, Join, CampaignPath;
    CampaignPathAnatomy(raw);
    var names := RawNames(raw);
    var front, last := names[..|names| - 1], names[|names| - 1];
    assert names == front + [last] && IsName(last);
    JoinEnd(names);
    TrimJoined(names);
    TrimFacts(Join(names));
    assert TrimEnd(last) == ".." ==> Trim(Join(names)) == Join(front + [".."]);
    if TrimEnd(last) == ".." {
      ParentEndRefused(front);
      assert false;
    }
  }

  /** A final all-blank component is trimmed away together with its slash. */
  lemma AllSpaceEnd(front: seq<string>)
    requires front != [] && AreNames(front)
    ensures TrimEnd(Lead(front)) == Lead(front) && TrimSlashes(Lead(front)) == Join(front)
    ensures Join(front) != ""
  {
    hide Join;
    JoinEnd(front);
    var lead := Lead(front);
    assert lead[|lead| - 1] == '/' && lead[..|lead| - 1] == Join(front);
    TrimSlashesFacts(Join(front));
  }

  /** A text of proper names is canonical exactly when it does not end in white space. */
  lemma NamesSettle(kept: seq<string>)
    requires kept != [] && AreNames(kept) && !IsWhitespace(Join(kept)[0]) && '\0' !in Join(kept)
    ensures CampaignPath(Join(kept)) == Ok(Join(kept)) <==> !EndsInWhitespace(kept[|kept| - 1])
  {
    hide IsWhitespace, TrimStart, TrimEnd, Join, CampaignPath, SlashFree;
    JoinEnd(kept);
    if EndsInWhitespace(Join(kept)) {
      if CampaignPath(Join(kept)).Ok? {
        SecondPassNoLonger(Join(kept));
      }
    } else {
      Canonical(kept);
    }
  }

  /** Trimming proper names leaves proper names, unless dots are all that is left of the last. */
  lemma TrimmedNames(names: seq<string>)
    requires names != [] && AreNames(names)
    ensures var word := TrimEnd(names[|names| - 1]);
      word != "." && word != ".." ==> AreNames(Trimmed(names))
  {
    hide TrimEnd, SlashFree;
    TrimmedSlashFree(names[|names| - 1]);
    assert IsName(names[|names| - 1]);
  }

  lemma TrimmedEnd(names: seq<string>)
    requires names != [] && Trimmed(names) != [] && names[|names| - 1] != ""
    ensures var kept, word := Trimmed(names), TrimEnd(names[|names| - 1]);
      && (word == "." ==> kept == names[..|names| - 1] + ["."])
      && (word != "." ==> (Settled(names) <==> !EndsInWhitespace(kept[|kept| - 1])))
      && (word == "." ==> (Settled(names) <==> names[|names| - 1] == "."))
  {
    hide IsWhitespace, TrimEnd;
    TrimEndFacts(names[|names| - 1]);
  }

  /** Canonicalisation is idempotent exactly on the settled texts. */
  lemma CanonicalisationSettles(raw: string)
    requires CampaignPath(raw).Ok?
    ensures RawNames(raw) != []
    ensures CampaignPath(CampaignPath(raw).value) == CampaignPath(raw) <==> Settled(RawNames(raw))
  {
    hide IsWhitespace, TrimStart, TrimEnd, Join, CampaignPath, SlashFree, Trimmed, Settled, RawNames;
    CampaignPathAnatomy(raw);
    CanonicalText(raw);
    var names := RawNames(raw);
    var front, last := names[..|names| - 1], names[|names| - 1];
    assert IsName(last);
    TrimmedEnd(names);
    TrimmedNames(names);
    NoNul(raw);
    if TrimEnd(last) == "." {
      DotEndUnsettled(front);
    } else {
      NamesSettle(Trimmed(names));
    }
  }

  lemma TrimmedSlashFree(s: string)
    requires SlashFree(s)
    ensures SlashFree(TrimEnd(s))
  {
    TrimEndFacts(s);
    assert TrimEnd(s) <= s;
  }

  lemma NoNul(raw: string)
    requires CampaignPath(raw).Ok?
    ensures '\0' !in CampaignPath(raw).value
  {
    hide TrimStart, TrimEnd, WorkspacePath;
    var parsed := WorkspacePath(Trim(raw)).value;
    TrimSlashesFacts(Trim(parsed));
  }

  lemma BlankExample(s: string)
    requires s == "a / /"
    ensures Trim(s) == s && Components(s) == [Normal("a "), Normal(" ")]
  {
    TrimFixed(s);
    SplitJoin(["a ", " ", ""]);
    assert Join(["a ", " ", ""]) == s;
    assert Split(s) == ["a ", " ", ""];
  }

  lemma TrimExample(s: string)
    requires s == "a / "
    ensures Trim(s) == "a /"
  {
    assert s == "a /" + " ";
    TrimEndBehind("a /", " ");
    TrimFacts(s);
    assert TrimEnd("a /") == "a /";
  }

  lemma ComponentsExample(s: string)
    requires s == "a /"
    ensures Components(s) == [Normal("a ")]
  {
    SplitJoin(["a ", ""]);
    assert Join(["a ", ""]) == s;
    assert Split(s) == ["a ", ""];
  }

  lemma FirstPassTrims(s: string)
    requires s == "a / "
    ensures AllowedPath(s) == Ok("a ")
  {
    TrimExample(s);
    var trimmed := Trim(s);
    ComponentsExample(trimmed);
    hide Trim, Components;
    assert trimmed[..2] == "a ";
    assert TrimSlashes(trimmed) == "a ";
  }

  lemma FirstPassJoins(s: string)
    requires s == "a / /" && Trim(s) == s && Components(s) == [Normal("a "), Normal(" ")]
    ensures WorkspacePath(s) == Ok("a / ")
  {
    hide Components, Trim;
    ResolveNormal([Normal("a "), Normal(" ")], []);
    assert Names([Normal("a "), Normal(" ")]) == ["a ", " "];
    assert Join(["a ", " "]) == "a / ";
    assert RelativeRequest(s) == Ok(s);
  }

  lemma SecondPassTrims()
    ensures CampaignPath("a ") == Ok("a")
  {
    assert Trim("a ") == "a";
    assert AreNames(["a"]);
    Canonical(["a"]);
  }

  lemma FirstPass(s: string)
    requires s == "a / /"
    ensures CampaignPath(s) == Ok("a ")
  {
    BlankExample(s);
    hide WorkspacePath, AllowedPath, Trim, Components;
    FirstPassJoins(s);
    var joined: string := WorkspacePath(s).value;
    FirstPassTrims(joined);
    assert '\0' !in s;
    assert Components(s)[0].Normal? && Components(s)[1].Normal?;
  }

  /** Two passes are needed: `a / /` becomes `a ` and then `a`. */
  lemma TwoPassesNeeded()
    ensures CampaignPath("a / /") == Ok("a ") && CampaignPath("a ") == Ok("a")
  {
    hide CampaignPath;
    FirstPass("a / /");
    SecondPassTrims();
  }

  // ---------------------------------------------------------------- the names a prefix test compares

  /** What a prefix test compares are the names of the raw text, with the end trimmed twice. */
  lemma KeyIsTrimmedNames(raw: string)
    requires CampaignPath(raw).Ok?
    ensures RawNames(raw) != [] && Trimmed(RawNames(raw)) != []
    ensures Key(raw) == Trimmed(Trimmed(RawNames(raw)))
  {
    hide IsWhitespace, TrimStart, TrimEnd, Join, CampaignPath, Split, SlashFree, TrimSlashes;
    CampaignPathAnatomy(raw);
    CanonicalText(raw);
    var names := RawNames(raw);
    var kept := Trimmed(names);
    TrimmedParts(names);
    TrimmedJoinable(names);
    TrimJoined(kept);
    TrimmedParts(kept);
    SplitJoin(Trimmed(kept));
  }

  lemma TrimmedParts(names: seq<string>)
    requires names != [] && forall i :: 0 <= i < |names| ==> SlashFree(names[i])
    ensures forall i :: 0 <= i < |Trimmed(names)| ==> SlashFree(Trimmed(names)[i])
  {
    hide SlashFree, TrimEnd;
    TrimmedSlashFree(names[|names| - 1]);
  }

  lemma TrimmedJoinable(names: seq<string>)
    requires AreNames(names) && names != [] && Trimmed(names) != []
    requires Join(Trimmed(names)) != "" && !IsWhitespace(Join(Trimmed(names))[0])
    ensures Joinable(Trimmed(names))
  {
    hide Join, IsWhitespace, TrimEnd;
    assert IsName(names[|names| - 1]);
    TrimmedSlashFree(names[|names| - 1]);
    var kept := Trimmed(names);
    assert forall i :: 0 <= i < |kept| - 1 ==> kept[i] == names[i];
    assert kept[|kept| - 1] == names[|kept| - 1] || kept[|kept| - 1] == TrimEnd(names[|names| - 1]);
  }

  predicate EndsBlank(names: seq<string>)
    requires names != []
  {
    EndsInWhitespace(names[|names| - 1])
  }

  /** They are the names of the raw text exactly when these do not end in white space. */
  lemma KeyIsRawNames(raw: string)
    requires CampaignPath(raw).Ok?
    ensures RawNames(raw) != []
    ensures Key(raw) == RawNames(raw) <==> !EndsBlank(RawNames(raw))
  {
    hide IsWhitespace, TrimEnd, CampaignPath, Split, SlashFree, TrimSlashes, Key, RawNames;
    CampaignPathAnatomy(raw);
    KeyIsTrimmedNames(raw);
    TrimmedSame(RawNames(raw));
    TrimmedSame(Trimmed(RawNames(raw)));
  }

  /** Trimming changes names exactly when the last one ends in white space, and then shortens them. */
  lemma TrimmedSame(names: seq<string>)
    requires names != [] && names[|names| - 1] != ""
    ensures Trimmed(names) == names <==> !EndsInWhitespace(names[|names| - 1])
    ensures |Trimmed(names)| <= |names|
    ensures |Trimmed(names)| == |names| ==> |Trimmed(names)[|names| - 1]| <= |names[|names| - 1]|
    ensures |Trimmed(names)| == |names| && EndsInWhitespace(names[|names| - 1]) ==>
      |Trimmed(names)[|names| - 1]| < |names[|names| - 1]|
  {
    hide TrimEnd;
    TrimEndFacts(names[|names| - 1]);
    assert names == names[..|names| - 1] + [names[|names| - 1]];
  }

  /** For all accepted strings the prefix test is the sequence-prefix relation on names: of the
      trimmed ones always, of the raw ones when neither text ends in a blank. */
  lemma UnderPrefixIsNamePrefix(path: string, prefix: string)
    requires PathIsUnderPrefix(path, prefix).Ok?
    ensures CampaignPath(path).Ok? && CampaignPath(prefix).Ok?
    ensures RawNames(path) != [] && Trimmed(RawNames(path)) != []
    ensures RawNames(prefix) != [] && Trimmed(RawNames(prefix)) != []
    ensures PathIsUnderPrefix(path, prefix).value <==>
      Trimmed(Trimmed(RawNames(prefix))) <= Trimmed(Trimmed(RawNames(path)))
    ensures !EndsBlank(RawNames(path)) && !EndsBlank(RawNames(prefix)) ==>
      (PathIsUnderPrefix(path, prefix).value <==> RawNames(prefix) <= RawNames(path))
  {
    UnderPrefixIsKeyPrefix(path, prefix);
    hide CampaignPath, AllowedPath, Key, RawNames, Trimmed, PathIsUnderPrefix, TrimEnd, IsWhitespace;
    KeyIsTrimmedNames(path);
    KeyIsTrimmedNames(prefix);
    KeyIsRawNames(path);
    KeyIsRawNames(prefix);
  }

  lemma PlainExample(s: string)
    requires s == "a/b"
    ensures CampaignPath(s) == Ok(s) && RawNames(s) == ["a", "b"] && Key(s) == ["a", "b"]
  {
    assert AreNames(["a", "b"]);
    assert Join(["a", "b"]) == s;
    Canonical(["a", "b"]);
    TrimFixed(s);
    ComponentsOfJoin(["a", "b"]);
    hide CampaignPath, AllowedPath, Join, Split, Components, TrimEnd;
    KeyIsRawNames(s);
  }

  /** Blank names at the end of a prefix are ignored: `a/b` is under `a / /`, whose names are not
      a prefix of its own. */
  lemma BlankPrefixAuthorises()
    ensures RawNames("a/b") == ["a", "b"] && RawNames("a / /") == ["a ", " "]
    ensures PathIsUnderPrefix("a/b", "a / /") == Ok(true)
  {
    hide CampaignPath, Key, AllowedPath, Allows, RawNames;
    PlainExample("a/b");
    BlankNames("a / /");
    FirstPass("a / /");
    BlankAllowed();
  }

  lemma BlankNames(s: string)
    requires s == "a / /"
    ensures RawNames(s) == ["a ", " "]
  {
    hide Components, Trim;
    BlankExample(s);
    assert Names([Normal("a "), Normal(" ")]) == ["a ", " "];
  }

  lemma BlankAllowed()
    ensures AllowedPath("a ") == Ok("a") && Allows("a", "a/b")
  {
    assert Trim("a ") == "a";
    SplitSlashFree("a");
    assert Components("a") == [Normal("a")];
    TrimFixed("a/b");
    assert "a" + "/" <= "a/b";
  }

  // ---------------------------------------------------------------- which texts are campaign paths

  /** Exactly the trimmed relative texts without NUL, of names only, whose last name is not `..` once
      trimmed. */
  lemma CampaignPathDomain(raw: string)
    ensures CampaignPath(raw).Ok? <==>
      && Trim(raw) != "" && '\0' !in raw && !IsAbsolute(Trim(raw))
      && OnlyNormal(Components(Trim(raw)))
      && RawNames(raw) != [] && TrimEnd(RawNames(raw)[|RawNames(raw)| - 1]) != ".."
  {
    hide IsWhitespace, TrimStart, TrimEnd, Join, AllowedPath, Resolve;
    var t := Trim(raw);
    var components := Components(t);
    if CampaignPath(raw).Ok? {
      CampaignPathAnatomy(raw);
      CanonicalText(raw);
      RootOnlyFirst(t);
      NormalUnless(components);
    } else if Trim(raw) != "" && '\0' !in raw && !IsAbsolute(t) && OnlyNormal(components) {
      NamesParse(raw);
    }
  }

  lemma RootOnlyFirst(t: string)
    requires !IsAbsolute(t)
    ensures RootDir !in Components(t)
  {
    SplitParts(t);
    ComponentNamesAreNames(Split(t), true);
  }

  lemma NamesParse(raw: string)
    requires Trim(raw) != "" && '\0' !in raw && !IsAbsolute(Trim(raw)) && OnlyNormal(Components(Trim(raw)))
    ensures RawNames(raw) != []
    ensures CampaignPath(raw).Ok? || TrimEnd(RawNames(raw)[|RawNames(raw)| - 1]) == ".."
  {
    hide IsWhitespace, TrimStart, TrimEnd, AllowedPath, Join;
    var t := Trim(raw);
    TrimFacts(raw);
    TrimFixed(t);
    SplitParts(t);
    ComponentNamesAreNames(Split(t), true);
    ResolveNormal(Components(t), []);
    FirstName(t);
    NamesWithoutNul(raw);
    var names := RawNames(raw);
    assert [] + names == names;
    assert RelativeRequest(t) == Ok(t);
    assert Components(t) == ComponentsOf(Split(t), true);
    hide Resolve, Components, Split, ComponentsOf, Names;
    if TrimEnd(names[|names| - 1]) != ".." {
      NamesAllowed(names);
    }
  }

  // ---------------------------------------------------------------- characters of parts and joins

  predicate Without(parts: seq<string>, c: char) {
    forall i :: 0 <= i < |parts| ==> c !in parts[i]
  }

  lemma {:induction false} SplitChars(s: string, c: char)
    requires c !in s
    ensures Without(Split(s), c)
  {
    if s != "" {
      SplitChars(s[1..], c);
    }
  }

  lemma {:induction false} NameChars(parts: seq<string>, first: bool, c: char)
    requires Without(parts, c)
    ensures Without(Names(ComponentsOf(parts, first)), c)
  {
    if parts != [] {
      assert Without(parts[1..], c);
      NameChars(parts[1..], false, c);
      var head, rest := ComponentOf(parts[0], first), Names(ComponentsOf(parts[1..], false));
      NamesConcat(head, ComponentsOf(parts[1..], false));
      var own := if head != [] && head[0].Normal? then [parts[0]] else [];
      assert Names(head) == own && Without(own, c);
      WithoutConcat(own, rest, c);
    }
  }

  lemma WithoutConcat(xs: seq<string>, ys: seq<string>, c: char)
    requires Without(xs, c) && Without(ys, c)
    ensures Without(xs + ys, c)
  {
  }

  lemma {:induction false} JoinChars(parts: seq<string>, c: char)
    requires c != '/' && Without(parts, c)
    ensures c !in Join(parts)
  {
    if |parts| > 1 {
      JoinChars(parts[1..], c);
    }
  }

  lemma NamesWithoutNul(raw: string)
    requires '\0' !in raw && !IsAbsolute(Trim(raw))
    ensures '\0' !in Join(RawNames(raw))
  {
    TrimMeans(raw);
    assert '\0' !in Trim(raw);
    hide IsWhitespace, Trim, Join, Without;
    SplitChars(Trim(raw), '\0');
    NameChars(Split(Trim(raw)), true, '\0');
    assert Components(Trim(raw)) == ComponentsOf(Split(Trim(raw)), true);
    JoinChars(RawNames(raw), '\0');
  }

  lemma {:induction false} ParentComponents(parts: seq<string>, first: bool)
    ensures ParentDir in ComponentsOf(parts, first) <==> ".." in parts
  {
    if parts != [] {
      ParentComponents(parts[1..], false);
      assert parts == [parts[0]] + parts[1..];
    }
  }

  lemma NamesAllowed(names: seq<string>)
    requires names != [] && AreNames(names) && TrimEnd(names[|names| - 1]) != ".."
    requires Join(names) != "" && !IsWhitespace(Join(names)[0]) && '\0' !in Join(names)
    ensures AllowedPath(Join(names)).Ok?
  {
    hide IsWhitespace, TrimStart, TrimEnd, Join, Split, ComponentsOf;
    assert IsName(names[|names| - 1]);
    TrimJoined(names);
    TrimMeans(Join(names));
    TrimFacts(Join(names));
    var t, kept := Trim(Join(names)), Trimmed(names);
    TrimmedParts(names);
    SplitJoin(kept);
    SplitConcat(Join(kept), "");
    assert Split("") == [""] by { SplitSlashFree(""); }
    NoSlashStart(names);
    assert t == Join(kept) || t == Join(kept) + "/" + "";
    assert Split(t) == kept || Split(t) == kept + [""];
    NoParentName(names);
    ParentComponents(Split(t), true);
  }

  lemma NoParentName(names: seq<string>)
    requires names != [] && AreNames(names) && TrimEnd(names[|names| - 1]) != ".."
    ensures ".." !in Trimmed(names) && ".." !in Trimmed(names) + [""]
  {
    hide TrimEnd, SlashFree;
    assert forall i :: 0 <= i < |names| ==> IsName(names[i]);
  }

  /** Trimmed, joined names do not start with a slash. */
  lemma NoSlashStart(names: seq<string>)
    requires names != [] && AreNames(names) && !IsWhitespace(Join(names)[0])
    ensures !IsAbsolute(Trim(Join(names)))
  {
    hide IsWhitespace, TrimEnd, TrimStart;
    assert IsName(names[0]);
    var j := Join(names);
    assert j[0] == names[0][0] != '/';
    TrimFacts(j);
    TrimEndFacts(j);
  }
}
