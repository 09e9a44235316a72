// Where an archive member may be written. Paths are Unix paths; characters stand
// for bytes.
module ArchivePath {
  import opened Options

  // ---- strings.Split(s, "/") and strings.Join(p, "/") ----

  function Split(s: string): (p: seq<string>)
    ensures p != []
  {
    if s == "" then [""]
    else
      var p := Split(s[1..]);
      if s[0] == '/' then [""] + p else [[s[0]] + p[0]] + p[1..]
  }

  function Join(p: seq<string>): string {
    if p == [] then "" else if |p| == 1 then p[0] else p[0] + "/" + Join(p[1..])
  }

  predicate NoSlash(s: string) { '/' !in s }

  lemma {:induction false} SplitAt(a: string, rest: string)
    requires NoSlash(a)
    ensures Split(a + "/" + rest) == [a] + Split(rest)
  {
    var s := a + "/" + rest;
    if a == "" {
      assert s[1..] == rest;
    } else {
      assert s[1..] == a[1..] + "/" + rest;
      SplitAt(a[1..], rest);
      assert [a[0]] + a[1..] == a;
    }
  }

  lemma {:induction false} SplitPlain(a: string)
    requires NoSlash(a)
    ensures Split(a) == [a]
  {
    if a != "" {
      SplitPlain(a[1..]);
      assert [a[0]] + a[1..] == a;
    }
  }

  // Join and Split undo each other.
  lemma {:induction false} SplitJoin(p: seq<string>)
    requires p != [] && forall s :: s in p ==> NoSlash(s)
    ensures Split(Join(p)) == p
  {
    if |p| == 1 {
      SplitPlain(p[0]);
    } else {
      SplitAt(p[0], Join(p[1..]));
      SplitJoin(p[1..]);
    }
  }

  lemma JoinPrepend(c: char, p: seq<string>)
    requires p != []
    ensures Join([[c] + p[0]] + p[1..]) == [c] + Join(p)
  {
    var q := [[c] + p[0]] + p[1..];
    assert q[1..] == p[1..];
    if |p| > 1 { assert ([c] + p[0]) + "/" + Join(p[1..]) == [c] + (p[0] + "/" + Join(p[1..])); }
  }

  lemma {:induction false} SplitNoSlash(s: string)
    ensures forall a :: a in Split(s) ==> NoSlash(a)
  {
    if s != "" {
      SplitNoSlash(s[1..]);
      var p := Split(s[1..]);
      assert p[0] in p;
      assert s[0] != '/' ==> forall c :: c in [s[0]] + p[0] ==> c != '/';
    }
  }

  lemma {:induction false} JoinSplit(s: string)
    ensures Join(Split(s)) == s
  {
    if s != "" {
      JoinSplit(s[1..]);
      var p := Split(s[1..]);
      if s[0] == '/' {
        assert ([""] + p)[1..] == p;
      } else {
        JoinPrepend(s[0], p);
      }
    }
  }

  lemma {:induction false} JoinConcat(p: seq<string>, q: seq<string>)
    requires p != [] && q != []
    ensures Join(p + q) == Join(p) + "/" + Join(q)
  {
    assert (p + q)[1..] == p[1..] + q;
    if |p| > 1 {
      JoinConcat(p[1..], q);
    } else {
      assert p[1..] + q == q;
    }
  }

  lemma SplitConcat(a: string, b: string)
    ensures Split(a + "/" + b) == Split(a) + Split(b)
  {
    JoinSplit(a);
    JoinSplit(b);
    SplitNoSlash(a);
    SplitNoSlash(b);
    JoinConcat(Split(a), Split(b));
    SplitJoin(Split(a) + Split(b));
  }

  // ---- filepath.Clean, Join, Rel ----

  // One element against the stack of elements kept so far.
  function CleanStep(rooted: bool, stack: seq<string>, seg: string): seq<string> {
    if seg == "" || seg == "." then stack
    else if seg != ".." then stack + [seg]
    else if stack != [] && stack[|stack| - 1] != ".." then stack[..|stack| - 1]
    else if rooted then stack
    else stack + [".."]
  }

  function CleanSegs(rooted: bool, segs: seq<string>): seq<string> {
    if segs == [] then [] else CleanStep(rooted, CleanSegs(rooted, segs[..|segs| - 1]), segs[|segs| - 1])
  }

  predicate IsAbs(path: string) { path != "" && path[0] == '/' }

  function Clean(path: string): string {
    if path == "" then "."
    else
      var body := Join(CleanSegs(IsAbs(path), Split(path)));
      if IsAbs(path) then "/" + body else if body == "" then "." else body
  }

  function JoinPath(a: string, b: string): string {
    if a != "" then Clean(a + "/" + b) else if b != "" then Clean(b) else ""
  }

  // The elements of a cleaned path.
  function Elements(clean: string): seq<string> {
    var body := if IsAbs(clean) then clean[1..] else clean;
    if body == "" || body == "." then [] else Split(body)
  }

  function CommonPrefix(a: seq<string>, b: seq<string>): (k: nat)
    ensures k <= |a| && k <= |b| && a[..k] == b[..k]
    ensures k < |a| && k < |b| ==> a[k] != b[k]
  {
    if a == [] || b == [] || a[0] != b[0] then 0 else 1 + CommonPrefix(a[1..], b[1..])
  }

  function Rel(basePath: string, targetPath: string): Result<string, string> {
    var base, target := Clean(basePath), Clean(targetPath);
    if base == target then Ok(".")
    else if IsAbs(base) != IsAbs(target) then Err("can't make target relative to base")
    else
      var b, t := Elements(base), Elements(target);
      var k := CommonPrefix(b, t);
      if k < |b| && b[k] == ".." then Err("can't make target relative to base")
      else Ok(Join(seq(|b| - k, _ => "..") + t[k..]))
  }

  // ---- safeArchivePath ----

  datatype PathError = EmptyName | Absolute | Traversal | InvalidName | Escapes

  function ReplaceBackslashes(name: string): string {
    seq(|name|, i requires 0 <= i < |name| => if name[i] == '\\' then '/' else name[i])
  }

  predicate ClimbsOut(path: string) { path == ".." || "../" <= path }

  function SafeArchivePath(dest: string, raw: string): Result<string, PathError> {
    var name := ReplaceBackslashes(raw);
    if name == "" then Err(EmptyName)
    else if IsAbs(name) then Err(Absolute)
    else if |name| >= 2 && name[1] == ':' then Err(Absolute)
    else if ".." in Split(name) then Err(Traversal)
    else
      var cleanName := Clean(name);
      if ClimbsOut(cleanName) then Err(Traversal)
      else if cleanName == "." then Err(InvalidName)
      else
        var target := JoinPath(dest, cleanName);
        var rel := Rel(dest, target);
        if rel.Err? || ClimbsOut(rel.value) then Err(Escapes) else Ok(target)
  }

  // ---- what it accepts ----

  predicate Plain(seg: string) { seg != "" && seg != "." && seg != ".." && NoSlash(seg) }

  predicate AllPlain(segs: seq<string>) { forall s :: s in segs ==> Plain(s) }

  // The cleaned absolute path with these elements.
  function Rooted(segs: seq<string>): string { "/" + Join(segs) }

  function Keep(segs: seq<string>): seq<string> {
    if segs == [] then []
    else
      var last := segs[|segs| - 1];
      Keep(segs[..|segs| - 1]) + (if last == "" || last == "." then [] else [last])
  }

  lemma {:induction false} KeepMembers(segs: seq<string>)
    ensures forall s :: s in Keep(segs) <==> s in segs && s != "" && s != "."
  {
    if segs != [] {
      KeepMembers(segs[..|segs| - 1]);
      assert segs == segs[..|segs| - 1] + [segs[|segs| - 1]];
    }
  }

  lemma {:induction false} KeepConcat(a: seq<string>, b: seq<string>)
    ensures Keep(a + b) == Keep(a) + Keep(b)
  {
    if b == [] {
      assert a + b == a;
    } else {
      assert (a + b)[..|a + b| - 1] == a + b[..|b| - 1];
      KeepConcat(a, b[..|b| - 1]);
    }
  }

  lemma {:induction false} KeepPlain(segs: seq<string>)
    requires AllPlain(segs)
    ensures Keep(segs) == segs
  {
    if segs != [] {
      assert Plain(segs[|segs| - 1]);
      assert forall s :: s in segs[..|segs| - 1] ==> s in segs;
      KeepPlain(segs[..|segs| - 1]);
      assert segs == segs[..|segs| - 1] + [segs[|segs| - 1]];
    }
  }

  // Without ".." elements the stack only grows: cleaning never introduces one.
  lemma {:induction false} CleanKeeps(rooted: bool, segs: seq<string>)
    requires ".." !in segs
    ensures CleanSegs(rooted, segs) == Keep(segs)
  {
    if segs != [] { CleanKeeps(rooted, segs[..|segs| - 1]); }
  }

  lemma FirstElement(s: string)
    ensures "../" <= s ==> Split(s)[0] == ".."
  {
    if "../" <= s {
      assert s == ".." + "/" + s[3..];
      SplitAt("..", s[3..]);
    }
  }

  lemma JoinPlain(segs: seq<string>)
    requires AllPlain(segs) && segs != []
    ensures Split(Join(segs)) == segs && Join(segs) != "" && Join(segs) != "." && !IsAbs(Join(segs)) && !ClimbsOut(Join(segs))
  {
    SplitJoin(segs);
    assert Plain(segs[0]);
    var s := Join(segs);
    FirstElement(s);
    SplitPlain("..");
    SplitPlain(".");
    SplitPlain("");
  }

  // Cleaning an absolute path without ".." elements.
  lemma CleanRooted(path: string)
    requires IsAbs(path) && ".." !in Split(path)
    ensures Clean(path) == Rooted(Keep(Split(path)))
  {
    CleanKeeps(true, Split(path));
  }

  lemma SplitRooted(segs: seq<string>)
    requires AllPlain(segs)
    ensures Keep(Split(Rooted(segs))) == segs && ".." !in Split(Rooted(segs))
    ensures Clean(Rooted(segs)) == Rooted(segs) && Elements(Rooted(segs)) == segs
  {
    KeepRooted(segs);
    CleanRooted(Rooted(segs));
    assert Rooted(segs)[1..] == Join(segs);
    if segs != [] { JoinPlain(segs); }
  }

  lemma SplitOfRooted(segs: seq<string>)
    requires AllPlain(segs)
    ensures Split(Rooted(segs)) == [""] + (if segs == [] then [""] else segs)
  {
    assert Rooted(segs) == "" + "/" + Join(segs);
    SplitAt("", Join(segs));
    SplitPlain("");
    if segs != [] { JoinPlain(segs); }
  }

  lemma KeepRooted(segs: seq<string>)
    requires AllPlain(segs)
    ensures Keep(Split(Rooted(segs))) == segs && ".." !in Split(Rooted(segs))
  {
    var tail := if segs == [] then [""] else segs;
    SplitOfRooted(segs);
    KeepConcat([""], tail);
    KeepNothing();
    KeepPlain(segs);
  }

  lemma KeepNothing()
    ensures Keep([""]) == []
  {
    assert [""][..0] == [];
  }

  predicate HasRealSegment(segs: seq<string>) { exists s :: s in segs && s != "" && s != "." }

  // The names safeArchivePath accepts, read off the name alone.
  predicate Acceptable(raw: string) {
    var name := ReplaceBackslashes(raw);
    name != "" && !IsAbs(name) && !(|name| >= 2 && name[1] == ':') && ".." !in Split(name) && HasRealSegment(Split(name))
  }

  // Cleaning a relative name without ".." elements.
  lemma CleanRelative(name: string)
    requires name != "" && !IsAbs(name) && ".." !in Split(name)
    ensures AllPlain(Keep(Split(name)))
    ensures HasRealSegment(Split(name)) <==> Keep(Split(name)) != []
    ensures Keep(Split(name)) != [] ==> Clean(name) == Join(Keep(Split(name)))
    ensures Keep(Split(name)) == [] ==> Clean(name) == "."
  {
    var kept := Keep(Split(name));
    CleanKeeps(false, Split(name));
    KeepMembers(Split(name));
    SplitNoSlash(name);
    if kept != [] {
      assert kept[0] in kept;
      JoinPlain(kept);
    }
  }

  lemma {:induction false} CommonPrefixExtends(a: seq<string>, b: seq<string>)
    ensures CommonPrefix(a, a + b) == |a|
  {
    if a != [] {
      assert (a + b)[1..] == a[1..] + b;
      CommonPrefixExtends(a[1..], b);
    }
  }

  // filepath.Join and filepath.Rel undo each other below a clean absolute root.
  lemma {:induction false} JoinThenRel(root: seq<string>, segs: seq<string>)
    requires AllPlain(root) && AllPlain(segs) && segs != []
    ensures JoinPath(Rooted(root), Join(segs)) == Rooted(root + segs)
    ensures Rel(Rooted(root), Rooted(root + segs)) == Ok(Join(segs))
  {
    JoinBelow(root, segs);
    RelBelow(root, segs);
  }

  lemma JoinBelow(root: seq<string>, segs: seq<string>)
    requires AllPlain(root) && AllPlain(segs) && segs != []
    ensures JoinPath(Rooted(root), Join(segs)) == Rooted(root + segs)
  {
    SplitConcat(Rooted(root), Join(segs));
    JoinPlain(segs);
    SplitRooted(root);
    KeepConcat(Split(Rooted(root)), segs);
    KeepPlain(segs);
    CleanRooted(Rooted(root) + "/" + Join(segs));
  }

  lemma RelBelow(root: seq<string>, segs: seq<string>)
    requires AllPlain(root) && AllPlain(segs) && segs != []
    ensures Rel(Rooted(root), Rooted(root + segs)) == Ok(Join(segs))
  {
    var t := root + segs;
    SplitRooted(root);
    SplitRooted(t);
    CommonPrefixExtends(root, segs);
    assert |t| > |root|;
    assert Rooted(root) != Rooted(t);
    assert seq(0, _ => "..") + t[|root|..] == segs;
  }

  // The last two checks, for a name that cleans to something.
  lemma AcceptPath(root: seq<string>, name: string)
    requires AllPlain(root) && name != "" && !IsAbs(name) && ".." !in Split(name) && Keep(Split(name)) != []
    ensures var segs := Keep(Split(name)); var c := Clean(name);
            c == Join(segs) && c != "." && !ClimbsOut(c) && JoinPath(Rooted(root), c) == Rooted(root + segs) &&
            Rel(Rooted(root), Rooted(root + segs)) == Ok(c)
  {
    CleanRelative(name);
    JoinPlain(Keep(Split(name)));
    JoinThenRel(root, Keep(Split(name)));
  }

  lemma AcceptedName(root: seq<string>, raw: string)
    requires AllPlain(root) && Acceptable(raw)
    ensures var name := ReplaceBackslashes(raw);
            var segs := Keep(Split(name));
            segs != [] && AllPlain(segs) &&
            SafeArchivePath(Rooted(root), raw) == Ok(Rooted(root + segs)) &&
            Clean(name) == Join(segs) &&
            Rel(Rooted(root), Rooted(root + segs)) == Ok(Clean(name))
  {
    var name := ReplaceBackslashes(raw);
    CleanRelative(name);
    AcceptPath(root, name);
  }

  lemma RefusedName(root: seq<string>, raw: string)
    requires !Acceptable(raw)
    ensures SafeArchivePath(Rooted(root), raw).Err?
  {
    var name := ReplaceBackslashes(raw);
    if name != "" && !IsAbs(name) && ".." !in Split(name) { CleanRelative(name); }
  }

  // For a clean absolute root: which names are accepted, the path returned, and
  // that taking it relative to the root gives back the cleaned name.
  lemma {:induction false} AcceptedPathStaysBelow(root: seq<string>, raw: string)
    requires AllPlain(root)
    ensures SafeArchivePath(Rooted(root), raw).Ok? <==> Acceptable(raw)
    ensures Acceptable(raw) ==>
              var name := ReplaceBackslashes(raw);
              var segs := Keep(Split(name));
              segs != [] && AllPlain(segs) &&
              SafeArchivePath(Rooted(root), raw) == Ok(Rooted(root + segs)) &&
              Clean(name) == Join(segs) &&
              Rel(Rooted(root), Rooted(root + segs)) == Ok(Clean(name))
  {
    if Acceptable(raw) { AcceptedName(root, raw); } else { RefusedName(root, raw); }
  }

  // Which error each refused name gets. The checks after Clean and after Rel
  // never fire: traversal is reported only for a ".." element in the name itself.
  lemma RefusalReasons(root: seq<string>, raw: string)
    requires AllPlain(root)
    ensures var name := ReplaceBackslashes(raw);
            SafeArchivePath(Rooted(root), raw) ==
              if name == "" then Err(EmptyName)
              else if IsAbs(name) || (|name| >= 2 && name[1] == ':') then Err(Absolute)
              else if ".." in Split(name) then Err(Traversal)
              else if Keep(Split(name)) == [] then Err(InvalidName)
              else Ok(Rooted(root + Keep(Split(name))))
  {
    var name := ReplaceBackslashes(raw);
    if name != "" && !IsAbs(name) && ".." !in Split(name) {
      CleanRelative(name);
      AcceptedPathStaysBelow(root, raw);
    }
  }

  // ---- what this means for the raw name, backslashes included ----

  predicate IsSeparator(c: char) { c == '/' || c == '\\' }

  // Equal up to exchanging the two separators.
  predicate SameButSeparators(a: string, b: string) {
    |a| == |b| && forall i :: 0 <= i < |a| ==> a[i] == b[i] || (a[i] == '/' && b[i] == '\\') || (a[i] == '\\' && b[i] == '/')
  }

  // Both separators mean the same everywhere in a name.
  lemma {:induction false} SeparatorsAlike(dest: string, a: string, b: string)
    requires SameButSeparators(a, b)
    ensures SafeArchivePath(dest, a) == SafeArchivePath(dest, b)
  {
    assert ReplaceBackslashes(a) == ReplaceBackslashes(b);
  }

  lemma {:induction false} SplitChars(s: string, c: char)
    requires c !in s
    ensures forall seg :: seg in Split(s) ==> c !in seg
  {
    if s != "" {
      var p := Split(s[1..]);
      SplitChars(s[1..], c);
      assert p[0] in p;
      assert forall seg :: seg in p[1..] ==> seg in p;
      if s[0] != '/' { assert c !in [s[0]] + p[0]; }
    }
  }

  lemma {:induction false} JoinChars(p: seq<string>, c: char)
    requires c != '/' && forall seg :: seg in p ==> c !in seg
    ensures c !in Join(p)
  {
    if |p| > 1 {
      assert p[0] in p;
      assert forall seg :: seg in p[1..] ==> seg in p;
      JoinChars(p[1..], c);
    } else if |p| == 1 {
      assert p[0] in p;
    }
  }

  // No accepted path below a root without backslashes holds a backslash.
  lemma {:induction false} NoBackslashesLeft(root: seq<string>, raw: string)
    requires AllPlain(root) && forall seg :: seg in root ==> '\\' !in seg
    ensures SafeArchivePath(Rooted(root), raw).Ok? ==> '\\' !in SafeArchivePath(Rooted(root), raw).value
  {
    if SafeArchivePath(Rooted(root), raw).Ok? {
      var name := ReplaceBackslashes(raw);
      AcceptedPathStaysBelow(root, raw);
      SplitChars(name, '\\');
      KeepMembers(Split(name));
      JoinChars(root + Keep(Split(name)), '\\');
    }
  }

  lemma {:induction false} SegmentBetween(a: string, seg: string, b: string)
    requires NoSlash(seg)
    requires a == "" || a[|a| - 1] == '/'
    requires b == "" || b[0] == '/'
    ensures seg in Split(a + seg + b)
  {
    TailSegment(seg, b);
    if a == "" {
      assert a + seg + b == seg + b;
    } else {
      var front := a[..|a| - 1];
      assert a + seg + b == front + "/" + (seg + b);
      SplitConcat(front, seg + b);
    }
  }

  lemma TailSegment(seg: string, b: string)
    requires NoSlash(seg) && (b == "" || b[0] == '/')
    ensures seg in Split(seg + b)
  {
    if b == "" {
      assert seg + b == seg;
      SplitPlain(seg);
    } else {
      assert seg + b == seg + "/" + b[1..];
      SplitAt(seg, b[1..]);
    }
  }

  // A relative name with ".." between separators of either kind is refused as a
  // traversal, whatever the destination.
  lemma {:induction false} ParentRefused(dest: string, a: string, b: string)
    requires a == "" || IsSeparator(a[|a| - 1])
    requires b == "" || IsSeparator(b[0])
    ensures var raw := a + ".." + b;
            IsSeparator(raw[0]) || raw[1] == ':' || SafeArchivePath(dest, raw) == Err(Traversal)
  {
    var raw := a + ".." + b;
    assert ReplaceBackslashes(raw) == ReplaceBackslashes(a) + ".." + ReplaceBackslashes(b);
    SegmentBetween(ReplaceBackslashes(a), "..", ReplaceBackslashes(b));
  }

  // A name that starts with a separator of either kind is refused as absolute.
  lemma AbsoluteRefused(dest: string, raw: string)
    requires raw != "" && IsSeparator(raw[0])
    ensures SafeArchivePath(dest, raw) == Err(Absolute)
  {
  }

  // A name without backslashes is judged by its own segments.
  lemma {:induction false} PlainNameJudged(root: seq<string>, raw: string)
    requires AllPlain(root) && '\\' !in raw
    ensures SafeArchivePath(Rooted(root), raw).Ok? <==>
            raw != "" && raw[0] != '/' && !(|raw| >= 2 && raw[1] == ':') && ".." !in Split(raw) &&
            exists seg :: seg in Split(raw) && seg != "" && seg != "."
    ensures SafeArchivePath(Rooted(root), raw).Ok? ==> SafeArchivePath(Rooted(root), raw) == Ok(Rooted(root + Keep(Split(raw))))
  {
    assert ReplaceBackslashes(raw) == raw;
    AcceptedPathStaysBelow(root, raw);
  }
}
