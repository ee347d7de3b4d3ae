/** The allowed-roots test of internal/mcp/tools.go, with Go's lexical path cleaning on Unix. */
module PathPolicy {
  import opened Strings

  const SLASH := '/'

  // ---------------------------------------------------------------- filepath.Clean

  predicate Rooted(path: string) {
    path != "" && path[0] == SLASH
  }

  /** One component of a path, read from left to right. */
  function Push(stack: seq<string>, part: string, rooted: bool): seq<string> {
    if part == "" || part == "." then stack
    else if part == ".." then
      if stack != [] && stack[|stack| - 1] != ".." then stack[..|stack| - 1]
      else if rooted then stack
      else stack + [part]
    else stack + [part]
  }

  function PushAll(stack: seq<string>, parts: seq<string>, rooted: bool): seq<string>
    decreases |parts|
  {
    if parts == [] then stack else PushAll(Push(stack, parts[0], rooted), parts[1..], rooted)
  }

  /** The components a path stands for: no empty ones, no ".", and ".." resolved where it can be. */
  function Components(path: string): seq<string> {
    PushAll([], Split(path, SLASH), Rooted(path))
  }

  function Clean(path: string): string {
    var text := Join(Components(path), SLASH);
    if Rooted(path) then [SLASH] + text else if text == "" then "." else text
  }

  // ---------------------------------------------------------------- what cleaning means

  /** The names a path writes out, in order and as often as it does: its parts that are not empty and not ".". */
  function Names(parts: seq<string>): seq<string> {
    if parts == [] then []
    else if parts[0] == "" || parts[0] == "." then Names(parts[1..])
    else [parts[0]] + Names(parts[1..])
  }

  /** Without "..", cleaning leaves exactly the names. */
  lemma {:induction false} PushAllIsNames(stack: seq<string>, parts: seq<string>, rooted: bool)
    requires ".." !in parts
    ensures PushAll(stack, parts, rooted) == stack + Names(parts)
    decreases |parts|
  {
    if parts == [] {
      assert stack + [] == stack;
    } else {
      var next := Push(stack, parts[0], rooted);
      PushAllIsNames(next, parts[1..], rooted);
      if parts[0] != "" && parts[0] != "." {
        assert (stack + [parts[0]]) + Names(parts[1..]) == stack + ([parts[0]] + Names(parts[1..]));
      }
    }
  }

  lemma ComponentsAreNames(path: string)
    requires ".." !in Split(path, SLASH)
    ensures Components(path) == Names(Split(path, SLASH))
  {
    PushAllIsNames([], Split(path, SLASH), Rooted(path));
    assert [] + Names(Split(path, SLASH)) == Names(Split(path, SLASH));
  }

  lemma {:induction false} PushAllAppend(stack: seq<string>, a: seq<string>, b: seq<string>, rooted: bool)
    ensures PushAll(stack, a + b, rooted) == PushAll(PushAll(stack, a, rooted), b, rooted)
    decreases |a|
  {
    if a == [] {
      assert a + b == b;
    } else {
      assert (a + b)[1..] == a[1..] + b;
      PushAllAppend(Push(stack, a[0], rooted), a[1..], b, rooted);
    }
  }

  /** A name and the ".." after it cancel, wherever they stand. */
  lemma ParentCancels(a: seq<string>, name: string, b: seq<string>, rooted: bool)
    requires name != "" && name != "." && name != ".."
    ensures PushAll([], a + [name, ".."] + b, rooted) == PushAll([], a + b, rooted)
  {
    var stack := PushAll([], a, rooted);
    PushAllAppend([], a + [name, ".."], b, rooted);
    PushAllAppend([], a, [name, ".."], rooted);
    PushAllAppend([], a, b, rooted);
    assert [name, ".."][1..] == [".."] && [".."][1..] == [];
    assert (stack + [name])[..|stack|] == stack;
    assert PushAll(stack + [name], [".."], rooted) == PushAll(stack, [], rooted);
  }

  /** A leading ".." vanishes from an absolute path; on a relative one it stays in front of what the rest comes to. */
  lemma LeadingParent(n: nat, parts: seq<string>)
    requires ".." !in parts
    ensures PushAll([], Parents(n) + parts, true) == Names(parts)
    ensures PushAll([], Parents(n) + parts, false) == Parents(n) + Names(parts)
  {
    ParentsClimb([], n, true);
    ParentsClimb([], n, false);
    assert [] + Parents(n) == Parents(n);
    PushAllAppend([], Parents(n), parts, true);
    PushAllAppend([], Parents(n), parts, false);
    PushAllIsNames([], parts, true);
    PushAllIsNames(Parents(n), parts, false);
    assert [] + Names(parts) == Names(parts);
  }

  function Parents(n: nat): seq<string> {
    seq(n, _ => "..")
  }

  lemma {:induction false} ParentsClimb(stack: seq<string>, n: nat, rooted: bool)
    requires rooted ==> stack == []
    requires !rooted ==> forall i :: 0 <= i < |stack| ==> stack[i] == ".."
    ensures PushAll(stack, Parents(n), rooted) == if rooted then [] else stack + Parents(n)
    decreases n
  {
    if n > 0 {
      assert Parents(n)[0] == ".." && Parents(n)[1..] == Parents(n - 1);
      ParentsClimb(Push(stack, "..", rooted), n - 1, rooted);
      assert (stack + [".."]) + Parents(n - 1) == stack + Parents(n);
    } else {
      assert stack + Parents(0) == stack;
    }
  }

  /** Empty parts and "." do nothing, wherever they stand. */
  lemma NothingPushed(a: seq<string>, part: string, b: seq<string>, rooted: bool)
    requires part == "" || part == "."
    ensures PushAll([], a + [part] + b, rooted) == PushAll([], a + b, rooted)
  {
    PushAllAppend([], a + [part], b, rooted);
    PushAllAppend([], a, [part], rooted);
    PushAllAppend([], a, b, rooted);
    assert [part][1..] == [];
  }

  ghost predicate AllNames(names: seq<string>) {
    names != [] && ".." !in names && AllProper(names)
  }

  lemma RelativePathIsRead(names: seq<string>)
    requires AllNames(names)
    ensures Components(Join(names, SLASH)) == names && !Rooted(Join(names, SLASH))
  {
    assert Free(names, SLASH) by { assert forall i :: 0 <= i < |names| ==> Proper(names[i]); }
    SplitOfJoin(names, SLASH);
    JoinIsEmptyOnlyForNone(names);
    NamesOfProper(names);
    ComponentsAreNames(Join(names, SLASH));
  }

  lemma AbsolutePathIsRead(names: seq<string>)
    requires AllNames(names)
    ensures Components([SLASH] + Join(names, SLASH)) == names
  {
    var text := Join(names, SLASH);
    assert Free(names, SLASH) by { assert forall i :: 0 <= i < |names| ==> Proper(names[i]); }
    SplitOfJoin(names, SLASH);
    assert "" + [SLASH] + text == [SLASH] + text;
    SplitAtFirst("", text, SLASH);
    assert ([""] + names)[1..] == names;
    NamesOfProper(names);
    ComponentsAreNames([SLASH] + text);
  }

  /** A path made of names is read back name by name, and is clean already. */
  lemma WrittenPathIsRead(names: seq<string>)
    requires names != [] && forall i :: 0 <= i < |names| ==> names[i] != "" && '/' !in names[i]
    requires "." !in names && ".." !in names
    ensures Components(Join(names, '/')) == names == Components("/" + Join(names, '/'))
    ensures Clean(Join(names, '/')) == Join(names, '/') && Clean("/" + Join(names, '/')) == "/" + Join(names, '/')
  {
    assert AllNames(names) by {
      assert forall i :: 0 <= i < |names| ==> names[i] != ".";
    }
    JoinIsEmptyOnlyForNone(names);
    RelativePathIsRead(names);
    AbsolutePathIsRead(names);
  }

  /** The two paths without names, as they are cleaned. */
  lemma BarePathsAreCleaned()
    ensures Clean("") == "." && Clean(".") == "." && Clean("/") == "/"
  {
    assert Split("", SLASH) == [""] && [""][1..] == [];
    assert Split(".", SLASH) == ["."] by { SplitOfPlain(".", SLASH); }
    assert ["."][1..] == [];
    ComponentsOfEtc();
  }

  lemma {:induction false} NamesOfProper(names: seq<string>)
    requires AllProper(names)
    ensures Names(names) == names
  {
    if names != [] {
      assert Proper(names[0]);
      NamesOfProper(names[1..]);
    }
  }

  // ---------------------------------------------------------------- isPathAllowed

  predicate HasDotDot(path: string) {
    exists i :: 0 <= i < |path| - 1 && path[i] == '.' && path[i + 1] == '.'
  }

  /** The string test: equal, or one continues the other after a separator. */
  predicate Covers(root: string, path: string) {
    path == root || root + [SLASH] <= path
  }

  method IsPathAllowed(path: string, allowedRoots: seq<string>) returns (allowed: bool)
    ensures allowed <==> !HasDotDot(path) && exists root :: root in allowedRoots && Contains(root, path)
    ensures allowed <==> !HasDotDot(path) && exists root :: root in allowedRoots && Leads(root, path)
  {
    if HasDotDot(path) {
      return false;
    }
    forall root ensures Leads(root, path) <==> Contains(root, path) {
      NamesAreComponents(path);
    }
    var cleaned := Clean(path);
    for i := 0 to |allowedRoots|
      invariant forall k :: 0 <= k < i ==> !Contains(allowedRoots[k], path)
    {
      CoversIsContains(allowedRoots[i], path);
      if Covers(Clean(allowedRoots[i]), cleaned) {
        return true;
      }
    }
    return false;
  }

  /** The same, with the path's side read off its text: its names are led by the root's components. */
  predicate Leads(root: string, path: string) {
    && Rooted(root) == Rooted(path)
    && Components(root) <= Names(Split(path, SLASH))
    && (Components(root) == [] ==> Names(Split(path, SLASH)) == [])
  }

  lemma NamesAreComponents(path: string)
    requires !HasDotDot(path)
    ensures Components(path) == Names(Split(path, SLASH))
  {
    if ".." in Split(path, SLASH) {
      DotDotIsSeen(path);
    }
    ComponentsAreNames(path);
  }

  /**
   What the test amounts to: both absolute or both relative, and the root's components lead the path's.
   A root without components ("/", ".", "") covers nothing but itself.
   */
  predicate Contains(root: string, path: string) {
    && Rooted(root) == Rooted(path)
    && Components(root) <= Components(path)
    && (Components(root) == [] ==> Components(path) == [])
  }

  // ---------------------------------------------------------------- string test and component test

  lemma {:induction false} JoinOfConcat(a: seq<string>, b: seq<string>, sep: char)
    requires a != [] && b != []
    ensures Join(a + b, sep) == Join(a, sep) + [sep] + Join(b, sep)
  {
    if |a| == 1 {
      assert (a + b)[1..] == b;
    } else {
      assert (a + b)[1..] == a[1..] + b;
      JoinOfConcat(a[1..], b, sep);
    }
  }

  lemma SplitOfConcat(a: string, b: string, sep: char)
    ensures Split(a + [sep] + b, sep) == Split(a, sep) + Split(b, sep)
  {
    var p, q := Split(a, sep), Split(b, sep);
    JoinOfSplit(a, sep);
    JoinOfSplit(b, sep);
    JoinOfConcat(p, q, sep);
    SplitOfJoin(p + q, sep);
  }

  /** For all strings: the string test at a separator boundary is the list-prefix test on components. */
  lemma CoversIsPrefixOfSplit(root: string, path: string)
    ensures Covers(root, path) <==> Split(root, SLASH) <= Split(path, SLASH)
  {
    var r, p := Split(root, SLASH), Split(path, SLASH);
    if root + [SLASH] <= path {
      var rest := path[|root| + 1..];
      assert path == root + [SLASH] + rest;
      SplitOfConcat(root, rest, SLASH);
    }
    if r <= p {
      JoinOfSplit(root, SLASH);
      JoinOfSplit(path, SLASH);
      if r != p {
        var rest := p[|r|..];
        assert p == r + rest;
        JoinOfConcat(r, rest, SLASH);
      }
    }
  }

  // ---------------------------------------------------------------- cleaned paths

  /** A component that can stand in a cleaned path. */
  predicate Proper(part: string) {
    part != "" && part != "." && SLASH !in part
  }

  ghost predicate AllProper(parts: seq<string>) {
    forall i :: 0 <= i < |parts| ==> Proper(parts[i])
  }

  lemma {:induction false} PushAllIsProper(stack: seq<string>, parts: seq<string>, rooted: bool)
    requires AllProper(stack) && Free(parts, SLASH)
    ensures AllProper(PushAll(stack, parts, rooted))
    decreases |parts|
  {
    if parts != [] {
      assert SLASH !in parts[0];
      PushAllIsProper(Push(stack, parts[0], rooted), parts[1..], rooted);
    }
  }

  lemma ComponentsAreProper(path: string)
    ensures AllProper(Components(path))
  {
    JoinOfSplit(path, SLASH);
    PushAllIsProper([], Split(path, SLASH), Rooted(path));
  }

  lemma JoinIsEmptyOnlyForNone(parts: seq<string>)
    requires AllProper(parts)
    ensures Join(parts, SLASH) == "" <==> parts == []
    ensures Join(parts, SLASH) != "."
    ensures parts != [] ==> Join(parts, SLASH)[0] != SLASH
  {
  }

  /** What splitting a cleaned path gives. */
  function CleanParts(parts: seq<string>, rooted: bool): seq<string> {
    if parts == [] then (if rooted then ["", ""] else ["."]) else (if rooted then [""] else []) + parts
  }

  /** Splitting a cleaned path gives its components back, after an empty one when it is absolute. */
  lemma SplitOfClean(path: string)
    ensures Split(Clean(path), SLASH) == CleanParts(Components(path), Rooted(path))
  {
    var parts := Components(path);
    ComponentsAreProper(path);
    JoinIsEmptyOnlyForNone(parts);
    var text := Join(parts, SLASH);
    assert "" + [SLASH] + text == [SLASH] + text;
    SplitAtFirst("", text, SLASH);
    if parts == [] {
      SplitOfPlain(".", SLASH);
      SplitOfPlain("", SLASH);
    } else {
      SplitOfJoin(parts, SLASH);
    }
  }

  lemma PrefixAfterSame(first: string, r: seq<string>, p: seq<string>)
    ensures [first] + r <= [first] + p <==> r <= p
  {
    assert forall i :: 0 <= i < |r| ==> r[i] == ([first] + r)[i + 1];
    assert forall i :: 0 <= i < |p| ==> p[i] == ([first] + p)[i + 1];
  }

  /** The first two parts tell absolute from relative, and no components from some. */
  lemma CleanPartsBegin(parts: seq<string>, rooted: bool)
    requires AllProper(parts)
    ensures var clean := CleanParts(parts, rooted);
            && clean != [] && (clean[0] == "" <==> rooted)
            && (rooted ==> |clean| > 1 && (clean[1] == "" <==> parts == []))
            && (!rooted ==> (clean[0] == "." <==> parts == []))
  {
  }

  lemma CleanPartsPrefix(r: seq<string>, rRooted: bool, p: seq<string>, pRooted: bool)
    requires AllProper(r) && AllProper(p)
    ensures CleanParts(r, rRooted) <= CleanParts(p, pRooted)
            <==> rRooted == pRooted && r <= p && (r == [] ==> p == [])
  {
    var cr, cp := CleanParts(r, rRooted), CleanParts(p, pRooted);
    CleanPartsBegin(r, rRooted);
    CleanPartsBegin(p, pRooted);
    if r != [] && p != [] {
      PrefixAfterSame("", r, p);
      assert [] + r == r && [] + p == p;
    } else if cr <= cp {
      assert cr[0] == cp[0] && (|cr| > 1 ==> cr[1] == cp[1]);
    }
  }

  lemma CoversIsContains(root: string, path: string)
    ensures Covers(Clean(root), Clean(path)) <==> Contains(root, path)
  {
    CoversIsPrefixOfSplit(Clean(root), Clean(path));
    SplitOfClean(root);
    SplitOfClean(path);
    ComponentsAreProper(root);
    ComponentsAreProper(path);
    CleanPartsPrefix(Components(root), Rooted(root), Components(path), Rooted(path));
  }

  /** A path without ".." keeps every component it names: cleaning only drops empty ones and ".". */
  lemma {:induction false} PushAllWithoutDotDot(stack: seq<string>, parts: seq<string>, rooted: bool)
    requires ".." !in parts && ".." !in stack
    ensures ".." !in PushAll(stack, parts, rooted)
    ensures stack <= PushAll(stack, parts, rooted)
    ensures forall part :: part in parts && part != "" && part != "." ==> part in PushAll(stack, parts, rooted)
    decreases |parts|
  {
    if parts != [] {
      var next := Push(stack, parts[0], rooted);
      PushAllWithoutDotDot(next, parts[1..], rooted);
      var all := PushAll(stack, parts, rooted);
      assert forall i :: 0 <= i < |next| ==> next[i] == all[i];
      forall part | part in parts && part != "" && part != "." ensures part in all {
        if part == parts[0] {
          assert next[|next| - 1] == part;
        } else {
          assert part in parts[1..];
        }
      }
    }
  }

  /** Every part of a joined text stands in it. */
  lemma {:induction false} PartIsInJoin(parts: seq<string>, i: nat) returns (pos: nat)
    requires i < |parts|
    ensures pos + |parts[i]| <= |Join(parts, SLASH)|
    ensures Join(parts, SLASH)[pos..pos + |parts[i]|] == parts[i]
  {
    if i == 0 {
      pos := 0;
    } else {
      var p := PartIsInJoin(parts[1..], i - 1);
      pos := |parts[0]| + 1 + p;
      var text, rest := Join(parts, SLASH), Join(parts[1..], SLASH);
      assert text == parts[0] + [SLASH] + rest;
      assert text[|parts[0]| + 1..] == rest;
    }
  }

  /** A path with a ".." component has two dots in a row. */
  lemma DotDotIsSeen(path: string)
    requires ".." in Split(path, SLASH)
    ensures HasDotDot(path)
  {
    var parts := Split(path, SLASH);
    var i :| 0 <= i < |parts| && parts[i] == "..";
    JoinOfSplit(path, SLASH);
    var pos := PartIsInJoin(parts, i);
    assert path[pos..pos + 2] == "..";
    assert path[pos] == path[pos..pos + 2][0] && path[pos + 1] == path[pos..pos + 2][1];
  }

  /** Two dots in a row are seen anywhere, and only they are. */
  lemma DotsAreSeen(a: string, b: string)
    ensures HasDotDot(a + ".." + b)
    ensures '.' !in a ==> !HasDotDot(a) && !HasDotDot(a + ".")
  {
    var path := a + ".." + b;
    assert path[|a|] == '.' && path[|a| + 1] == '.';
  }

  /** So an allowed path never climbs: it has no ".." among its components, and lies under some root's. */
  lemma AllowedPathDoesNotClimb(path: string)
    requires !HasDotDot(path)
    ensures ".." !in Components(path)
  {
    if ".." in Split(path, SLASH) {
      DotDotIsSeen(path);
    }
    PushAllWithoutDotDot([], Split(path, SLASH), Rooted(path));
  }

  /** The containment the allowed roots are meant to give: the path lies at or below the root. */
  predicate Below(root: string, path: string) {
    Rooted(root) == Rooted(path) && Components(root) <= Components(path)
  }

  /**
   The server's test agrees with containment except for a root without components: such a root,
   "/" for instance, admits only itself and nothing below it.
   */
  lemma TestIsContainmentUnlessBare(root: string, path: string)
    ensures (Covers(Clean(root), Clean(path)) <==> Below(root, path))
            <==> (Components(root) != [] || Components(path) == [] || Rooted(root) != Rooted(path))
    ensures Below("/", "/etc") && !Covers(Clean("/"), Clean("/etc"))
  {
    CoversIsContains(root, path);
    CoversIsContains("/", "/etc");
    ComponentsOfEtc();
  }

  lemma ComponentsOfEtc()
    ensures Components("/etc") == ["etc"] && Components("/") == []
  {
    assert Split("/etc", SLASH) == ["", "etc"] by {
      SplitOfPlain("etc", SLASH);
      assert "" + [SLASH] + "etc" == "/etc";
      SplitAtFirst("", "etc", SLASH);
    }
    assert Split("/", SLASH) == ["", ""] by {
      SplitOfPlain("", SLASH);
      assert "" + [SLASH] + "" == "/";
      SplitAtFirst("", "", SLASH);
    }
    assert ["", "etc"][1..] == ["etc"] && ["", ""][1..] == [""];
    assert ["etc"][1..] == [] && [""][1..] == [];
    assert Push([], "etc", true) == ["etc"];
    assert PushAll([], ["etc"], true) == ["etc"];
    assert Components("/etc") == ["etc"];
    assert Components("/") == [];
  }
}
