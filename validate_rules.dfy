/** The naming-rule script: it walks the `app`, `components`, `hooks` and
    `lib` directories of the project and collects one message per violation
    of three rules — directories are kebab-case, component files PascalCase,
    hook files camelCase starting with `use`. The messages are reported but
    the script never signals failure.

    The file system is a parameter: a project root and, for each top-level
    directory that exists, its entries as a tree, each directory's entries in
    the order the listing returns them. Paths are POSIX paths relative to the
    root. */
module ValidateRules {
  import opened Wrappers
  import opened Text

  // ---------------------------------------------------------------- the three name tests

  predicate KebabChar(c: char) { IsAsciiLower(c) || IsAsciiDigit(c) }

  predicate IsAsciiAlnum(c: char) { IsAsciiLower(c) || IsAsciiUpper(c) || IsAsciiDigit(c) }

  /** `/^[a-z0-9]+(-[a-z0-9]+)*$/`, read left to right: a group of at least
      one kebab character ... */
  function MatchGroups(s: string): bool
    decreases |s|
  {
    s != [] && KebabChar(s[0]) && MatchRest(s[1..])
  }

  /** ... then more kebab characters, or a hyphen that opens a new group. */
  function MatchRest(s: string): bool
    decreases |s|
  {
    s == [] || (KebabChar(s[0]) && MatchRest(s[1..])) || (s[0] == '-' && MatchGroups(s[1..]))
  }

  /** `checkKebabCase(name)`. */
  predicate CheckKebabCase(name: string) {
    MatchGroups(name)
  }

  /** Only kebab characters and hyphens, and no two hyphens side by side. */
  predicate HyphenSeparated(s: string) {
    && (forall i :: 0 <= i < |s| ==> KebabChar(s[i]) || s[i] == '-')
    && (forall i :: 0 <= i < |s| - 1 ==> s[i] == '-' ==> s[i + 1] != '-')
  }

  /** Kebab-case stated directly: non-empty groups of `[a-z0-9]` joined by
      single hyphens, so no leading, trailing or doubled hyphen. */
  predicate KebabShape(s: string) {
    s != [] && s[0] != '-' && s[|s| - 1] != '-' && HyphenSeparated(s)
  }

  predicate RestShape(s: string) {
    (s != [] ==> s[|s| - 1] != '-') && HyphenSeparated(s)
  }

  lemma HyphenSeparatedCons(s: string)
    requires s != []
    ensures HyphenSeparated(s) <==>
      && (KebabChar(s[0]) || s[0] == '-')
      && (|s| > 1 && s[0] == '-' ==> s[1] != '-')
      && HyphenSeparated(s[1..])
  {
    var t := s[1..];
    if (KebabChar(s[0]) || s[0] == '-') && (|s| > 1 && s[0] == '-' ==> s[1] != '-') && HyphenSeparated(t) {
      forall i | 0 <= i < |s| ensures KebabChar(s[i]) || s[i] == '-' {
        if i > 0 { assert s[i] == t[i - 1]; }
      }
      forall i | 0 <= i < |s| - 1 && s[i] == '-' ensures s[i + 1] != '-' {
        if i > 0 { assert s[i] == t[i - 1] && s[i + 1] == t[i]; }
      }
    }
    if HyphenSeparated(s) {
      forall i | 0 <= i < |t| ensures KebabChar(t[i]) || t[i] == '-' {
        assert t[i] == s[i + 1];
      }
      forall i | 0 <= i < |t| - 1 && t[i] == '-' ensures t[i + 1] != '-' {
        assert t[i] == s[i + 1] && t[i + 1] == s[i + 2];
      }
    }
  }

  lemma {:induction false} MatchGroupsIff(s: string)
    ensures MatchGroups(s) <==> KebabShape(s)
    decreases |s|, 1
  {
    if s != [] {
      MatchRestIff(s[1..]);
      HyphenSeparatedCons(s);
    }
  }

  lemma {:induction false} MatchRestIff(s: string)
    ensures MatchRest(s) <==> RestShape(s)
    decreases |s|, 0
  {
    if s != [] {
      MatchRestIff(s[1..]);
      MatchGroupsIff(s[1..]);
      HyphenSeparatedCons(s);
    }
  }

  /** `checkKebabCase` accepts exactly the kebab-case names. */
  lemma CheckKebabCaseIff(name: string)
    ensures CheckKebabCase(name) <==> KebabShape(name)
  {
    MatchGroupsIff(name);
  }

  /** Only kebab characters from index `i` on, written so that it can be
      evaluated on a literal. */
  predicate KebabCharsFrom(s: string, i: nat)
    decreases |s| - i
  {
    i >= |s| || (KebabChar(s[i]) && KebabCharsFrom(s, i + 1))
  }

  lemma {:induction false} KebabCharsFromAll(s: string, i: nat)
    requires KebabCharsFrom(s, i)
    ensures forall k :: i <= k < |s| ==> KebabChar(s[k])
    decreases |s| - i
  {
    if i < |s| {
      KebabCharsFromAll(s, i + 1);
    }
  }

  /** A non-empty run of `[a-z0-9]` is a kebab-case name. */
  lemma KebabWord(s: string)
    requires s != [] && KebabCharsFrom(s, 0)
    ensures CheckKebabCase(s)
  {
    KebabCharsFromAll(s, 0);
    CheckKebabCaseIff(s);
  }

  /** Names the test accepts. */
  lemma KebabAccepts()
    ensures CheckKebabCase("vault-hero") && CheckKebabCase("home") && CheckKebabCase("v2")
  {
    KebabWord("vault");
    KebabWord("hero");
    KebabJoin("vault", "hero");
    assert "vault" + "-" + "hero" == "vault-hero";
    KebabWord("home");
    KebabWord("v2");
  }

  /** Names the test rejects: empty, capitalised, with a leading, trailing or
      doubled hyphen, or with an underscore. */
  lemma KebabRejects()
    ensures !CheckKebabCase("") && !CheckKebabCase("Home") && !CheckKebabCase("-a")
    ensures !CheckKebabCase("a-") && !CheckKebabCase("a--b") && !CheckKebabCase("vault_hero")
  {
    CheckKebabCaseIff("a-");
    CheckKebabCaseIff("a--b");
    assert "a--b"[1] == '-' && "a--b"[2] == '-';
    CheckKebabCaseIff("vault_hero");
    assert !KebabChar("vault_hero"[5]) && "vault_hero"[5] != '-';
  }

  /** Two kebab-case names joined by a hyphen are kebab-case. */
  lemma KebabJoin(a: string, b: string)
    requires CheckKebabCase(a) && CheckKebabCase(b)
    ensures CheckKebabCase(a + "-" + b)
  {
    CheckKebabCaseIff(a);
    CheckKebabCaseIff(b);
    CheckKebabCaseIff(a + "-" + b);
    var s := a + "-" + b;
    forall i | 0 <= i < |s| ensures KebabChar(s[i]) || s[i] == '-' {
      if i < |a| { assert s[i] == a[i]; }
      else if i > |a| { assert s[i] == b[i - |a| - 1]; }
    }
    forall i | 0 <= i < |s| - 1 && s[i] == '-' ensures s[i + 1] != '-' {
      if i < |a| - 1 { assert s[i] == a[i] && s[i + 1] == a[i + 1]; }
      else if i == |a| - 1 { }
      else if i == |a| { assert s[i + 1] == b[0]; }
      else { assert s[i] == b[i - |a| - 1] && s[i + 1] == b[i - |a|]; }
    }
    assert s[|s| - 1] == b[|b| - 1];
  }

  /** `checkPascalCase(name)`: `/^[A-Z][a-zA-Z0-9]*$/`. */
  predicate CheckPascalCase(name: string) {
    |name| > 0 && IsAsciiUpper(name[0]) && forall i :: 1 <= i < |name| ==> IsAsciiAlnum(name[i])
  }

  /** `checkCamelCase(name)`: `/^[a-z][a-zA-Z0-9]*$/`. */
  predicate CheckCamelCase(name: string) {
    |name| > 0 && IsAsciiLower(name[0]) && forall i :: 1 <= i < |name| ==> IsAsciiAlnum(name[i])
  }

  /** The two tests differ only in the case of the first character: no name
      passes both, and upper-casing the first letter turns a camelCase name
      into a PascalCase one. */
  lemma PascalCamelRelation(name: string)
    ensures !(CheckPascalCase(name) && CheckCamelCase(name))
    ensures CheckCamelCase(name) ==> CheckPascalCase([UpperChar(name[0])] + name[1..])
  {
    if CheckCamelCase(name) {
      var p := [UpperChar(name[0])] + name[1..];
      forall i | 1 <= i < |p| ensures IsAsciiAlnum(p[i]) {
        assert p[i] == name[i];
      }
    }
  }

  // ---------------------------------------------------------------- walk

  /** A directory entry: a file, or a directory with its entries. */
  datatype Entry = File(name: string) | Dir(name: string, entries: seq<Entry>)

  /** One callback of `walk`: the entry's path relative to the root, its
      base name and whether it is a directory. */
  datatype Visit = Visit(path: string, name: string, isDir: bool)

  /** `walk(dir, callback)` over the listing of `dir`: each entry in turn,
      a directory reported before its own entries. */
  function WalkEntries(dir: string, entries: seq<Entry>): seq<Visit>
    decreases entries
  {
    if entries == [] then [] else WalkEntry(dir, entries[0]) + WalkEntries(dir, entries[1..])
  }

  function WalkEntry(dir: string, e: Entry): seq<Visit>
    decreases e
  {
    var path := dir + "/" + e.name;
    match e
    case File(name) => [Visit(path, name, false)]
    case Dir(name, entries) => [Visit(path, name, true)] + WalkEntries(path, entries)
  }

  /** The number of entries in a listing, counting every level. */
  function Size(entries: seq<Entry>): nat
    decreases entries
  {
    if entries == [] then 0 else EntrySize(entries[0]) + Size(entries[1..])
  }

  function EntrySize(e: Entry): nat
    decreases e
  {
    match e
    case File(_) => 1
    case Dir(_, entries) => 1 + Size(entries)
  }

  /** `walk` makes as many callbacks as there are entries, at every level. */
  lemma {:induction false} WalkVisitsEveryEntryOnce(dir: string, entries: seq<Entry>)
    ensures |WalkEntries(dir, entries)| == Size(entries)
    decreases entries
  {
    if entries != [] {
      WalkEntryVisitsOnce(dir, entries[0]);
      WalkVisitsEveryEntryOnce(dir, entries[1..]);
    }
  }

  lemma {:induction false} WalkEntryVisitsOnce(dir: string, e: Entry)
    ensures |WalkEntry(dir, e)| == EntrySize(e)
    decreases e
  {
    if e.Dir? {
      WalkVisitsEveryEntryOnce(dir + "/" + e.name, e.entries);
    }
  }

  lemma {:induction false} WalkEntriesAppend(dir: string, a: seq<Entry>, b: seq<Entry>)
    ensures WalkEntries(dir, a + b) == WalkEntries(dir, a) + WalkEntries(dir, b)
    ensures Size(a + b) == Size(a) + Size(b)
  {
    if a == [] {
      assert a + b == b;
    } else {
      assert (a + b)[1..] == a[1..] + b;
      WalkEntriesAppend(dir, a[1..], b);
    }
  }

  /** Entry `k` of a listing has its own slot in the walk: its visits, the
      entry itself first, fill the `EntrySize(entries[k])` positions starting
      at the number of visits of the entries before it. Distinct entries get
      disjoint slots, so no entry is skipped and none is visited twice. */
  lemma WalkEntrySlot(dir: string, entries: seq<Entry>, k: nat)
    requires k < |entries|
    ensures var ws := WalkEntries(dir, entries);
      var i := Size(entries[..k]);
      && i + EntrySize(entries[k]) <= |ws|
      && ws[i..i + EntrySize(entries[k])] == WalkEntry(dir, entries[k])
    ensures Size(entries[..k + 1]) == Size(entries[..k]) + EntrySize(entries[k])
    ensures EntrySize(entries[k]) >= 1
  {
    var e := entries[k];
    assert entries == entries[..k] + [e] + entries[k + 1..];
    assert entries[..k + 1] == entries[..k] + [e];
    assert [e][1..] == [];
    WalkEntriesAppend(dir, entries[..k] + [e], entries[k + 1..]);
    WalkEntriesAppend(dir, entries[..k], [e]);
    WalkVisitsEveryEntryOnce(dir, entries[..k]);
    WalkEntryVisitsOnce(dir, e);
  }

  /** Every entry of a listing reaches the callback with its path, name and
      kind, and so does everything a directory entry's own walk visits: by
      induction, every file and directory at every level. */
  lemma WalkReachesEveryEntry(dir: string, entries: seq<Entry>, k: nat)
    requires k < |entries|
    ensures var e := entries[k];
      Visit(dir + "/" + e.name, e.name, e.Dir?) in WalkEntries(dir, entries)
    ensures var e := entries[k];
      e.Dir? ==> forall v :: v in WalkEntries(dir + "/" + e.name, e.entries) ==> v in WalkEntries(dir, entries)
  {
    var e := entries[k];
    var ws := WalkEntries(dir, entries);
    var i := Size(entries[..k]);
    WalkEntrySlot(dir, entries, k);
    WalkEntryPreOrder(dir, e);
    assert ws[i] == WalkEntry(dir, e)[0];
    if e.Dir? {
      forall v | v in WalkEntries(dir + "/" + e.name, e.entries)
        ensures v in ws
      {
        var j :| 0 <= j < |WalkEntries(dir + "/" + e.name, e.entries)| && WalkEntries(dir + "/" + e.name, e.entries)[j] == v;
        assert WalkEntry(dir, e)[j + 1] == v;
        assert ws[i + j + 1] == v;
      }
    }
  }

  /** `v` sits directly in `dir`. */
  predicate DirectlyIn(v: Visit, dir: string) {
    v.path == dir + "/" + v.name
  }

  /** `v` sits somewhere below the directory visited as `d`. */
  predicate Below(v: Visit, d: Visit) {
    d.isDir && StartsWith(v.path, d.path + "/")
  }

  /** Every visit lies below `dir`; those not directly in it come after a
      directory visit that contains them — the pre-order: a directory is
      reported before anything inside it. */
  predicate PreOrder(dir: string, vs: seq<Visit>) {
    forall j :: 0 <= j < |vs| ==>
      && StartsWith(vs[j].path, dir + "/")
      && (DirectlyIn(vs[j], dir) || exists i :: 0 <= i < j && Below(vs[j], vs[i]))
  }

  lemma StartsWithTrans(s: string, a: string, b: string)
    requires StartsWith(s, a) && StartsWith(a, b)
    ensures StartsWith(s, b)
  {
    assert s[..|b|] == s[..|a|][..|b|];
  }

  lemma {:induction false} WalkEntriesPreOrder(dir: string, entries: seq<Entry>)
    ensures PreOrder(dir, WalkEntries(dir, entries))
    decreases entries
  {
    if entries != [] {
      WalkEntryPreOrder(dir, entries[0]);
      WalkEntriesPreOrder(dir, entries[1..]);
      PreOrderConcat(dir, WalkEntry(dir, entries[0]), WalkEntries(dir, entries[1..]));
    }
  }

  lemma {:induction false} WalkEntryPreOrder(dir: string, e: Entry)
    ensures PreOrder(dir, WalkEntry(dir, e))
    ensures WalkEntry(dir, e)[0] == Visit(dir + "/" + e.name, e.name, e.Dir?)
    decreases e
  {
    var path := dir + "/" + e.name;
    assert StartsWith(path, dir + "/");
    if e.Dir? {
      var head := Visit(path, e.name, true);
      var inner := WalkEntries(path, e.entries);
      WalkEntriesPreOrder(path, e.entries);
      var vs := [head] + inner;
      assert vs == WalkEntry(dir, e);
      forall j | 0 <= j < |vs|
        ensures StartsWith(vs[j].path, dir + "/")
        ensures DirectlyIn(vs[j], dir) || exists i :: 0 <= i < j && Below(vs[j], vs[i])
      {
        if j > 0 {
          assert vs[j] == inner[j - 1];
          StartsWithTrans(vs[j].path, path + "/", dir + "/");
          assert Below(vs[j], vs[0]);
        }
      }
    }
  }

  lemma PreOrderConcat(dir: string, a: seq<Visit>, b: seq<Visit>)
    requires PreOrder(dir, a) && PreOrder(dir, b)
    ensures PreOrder(dir, a + b)
  {
    var vs := a + b;
    forall j | 0 <= j < |vs|
      ensures StartsWith(vs[j].path, dir + "/")
      ensures DirectlyIn(vs[j], dir) || exists i :: 0 <= i < j && Below(vs[j], vs[i])
    {
      if j < |a| {
        assert vs[j] == a[j];
        if !DirectlyIn(a[j], dir) {
          var i :| 0 <= i < j && Below(a[j], a[i]);
          assert vs[i] == a[i];
        }
      } else {
        assert vs[j] == b[j - |a|];
        if !DirectlyIn(b[j - |a|], dir) {
          var i :| 0 <= i < j - |a| && Below(b[j - |a|], b[i]);
          assert vs[i + |a|] == b[i];
        }
      }
    }
  }

  /** `walk` on a directory that does not exist calls back nothing. */
  function Walk(listing: map<string, seq<Entry>>, dir: string): seq<Visit> {
    if dir in listing then WalkEntries(dir, listing[dir]) else []
  }

  // ---------------------------------------------------------------- the three rules

  /** The rule a pass applies to each visit. */
  datatype Rule = DirectoryRule | ComponentRule | HookRule

  const DirectoryMessage: string := "[Rule Violation] Directory name must be kebab-case: "
  const ComponentMessage: string := "[Rule Violation] Component file should be PascalCase: "
  const HookUseMessage: string := "[Rule Violation] Hook file should start with 'use': "
  const HookCamelMessage: string := "[Rule Violation] Hook file should be camelCase: "

  /** The directory pass: entries whose name starts with `[`, `_` or `.` and
      paths through `node_modules` are skipped (their contents are still
      visited); a directory is reported when its name is not kebab-case.
      `root` is the absolute path of the project, which the `node_modules`
      test sees. */
  function DirectoryCheck(root: string, v: Visit): (r: Option<string>)
    ensures r.Some? <==>
      && v.isDir && !CheckKebabCase(v.name)
      && !StartsWith(v.name, "[") && !StartsWith(v.name, "_") && !StartsWith(v.name, ".")
      && !Includes(root + "/" + v.path, "node_modules")
    ensures r.Some? ==> r.value == DirectoryMessage + v.path
  {
    var name := v.name;
    if StartsWith(name, "[") || StartsWith(name, "_") || StartsWith(name, ".") then None
    else if Includes(root + "/" + v.path, "node_modules") then None
    else if v.isDir && !CheckKebabCase(name) then Some(DirectoryMessage + v.path)
    else None
  }

  /** `name.replace('.tsx', '')`: the first `.tsx` is removed. */
  function ComponentStem(name: string): string {
    ReplaceFirst(name, ".tsx", "")
  }

  /** The component pass: files ending in `.tsx`, other than `index.tsx` and
      anything whose path mentions `components/ui` or `components\ui`, are
      reported when their stem is not PascalCase. */
  function ComponentCheck(v: Visit): (r: Option<string>)
    ensures r.Some? <==>
      && !v.isDir && EndsWith(v.name, ".tsx") && v.name != "index.tsx"
      && !Includes(v.path, "components\\ui") && !Includes(v.path, "components/ui")
      && !CheckPascalCase(ComponentStem(v.name))
    ensures r.Some? ==> r.value == ComponentMessage + v.path
  {
    if v.isDir then None
    else if Includes(v.path, "components\\ui") || Includes(v.path, "components/ui") then None
    else if v.name == "index.tsx" then None
    else if EndsWith(v.name, ".tsx") && !CheckPascalCase(ComponentStem(v.name)) then Some(ComponentMessage + v.path)
    else None
  }

  /** `name.replace(/\.tsx?$/, '')` for a name ending in `.ts` or `.tsx`. */
  function HookStem(name: string): (r: string)
    requires EndsWith(name, ".ts") || EndsWith(name, ".tsx")
    ensures r + (if EndsWith(name, ".tsx") then ".tsx" else ".ts") == name
  {
    if EndsWith(name, ".tsx") then name[..|name| - 4] else name[..|name| - 3]
  }

  predicate IsHookSource(v: Visit) {
    && !v.isDir
    && (EndsWith(v.name, ".ts") || EndsWith(v.name, ".tsx"))
    && v.name != "index.ts"
    && !Includes(v.name, ".test.") && !Includes(v.name, ".spec.")
  }

  /** The hook pass: `.ts` and `.tsx` files other than `index.ts`, tests and
      specs get the `use` error when their stem does not start with `use`,
      and otherwise the camelCase error when the stem is not camelCase. */
  function HookCheck(v: Visit): (r: Option<string>)
    ensures r.None? <==> !IsHookSource(v) || (StartsWith(HookStem(v.name), "use") && CheckCamelCase(HookStem(v.name)))
    ensures r.Some? ==> r.value == (if StartsWith(HookStem(v.name), "use") then HookCamelMessage else HookUseMessage) + v.path
  {
    if v.isDir then None
    else if !EndsWith(v.name, ".ts") && !EndsWith(v.name, ".tsx") then None
    else if v.name == "index.ts" then None
    else
      var stem := HookStem(v.name);
      if Includes(v.name, ".test.") || Includes(v.name, ".spec.") then None
      else if !StartsWith(stem, "use") then Some(HookUseMessage + v.path)
      else if !CheckCamelCase(stem) then Some(HookCamelMessage + v.path)
      else None
  }

  function Check(rule: Rule, root: string, v: Visit): Option<string> {
    match rule
    case DirectoryRule => DirectoryCheck(root, v)
    case ComponentRule => ComponentCheck(v)
    case HookRule => HookCheck(v)
  }

  /** The callback the script hands to `walk` for a rule. */
  function Callback(rule: Rule, root: string): Visit -> Option<string> {
    v => Check(rule, root, v)
  }

  /** The message a callback pushes, if any. */
  function Pushed(message: Option<string>): seq<string> {
    if message.Some? then [message.value] else []
  }

  /** The messages a callback pushes over a walk, in visiting order. */
  function Collected(callback: Visit -> Option<string>, vs: seq<Visit>): (r: seq<string>)
    ensures |r| <= |vs|
    decreases vs
  {
    if vs == [] then [] else Pushed(callback(vs[0])) + Collected(callback, vs[1..])
  }

  lemma {:induction false} CollectedConcat(callback: Visit -> Option<string>, a: seq<Visit>, b: seq<Visit>)
    ensures Collected(callback, a + b) == Collected(callback, a) + Collected(callback, b)
    decreases a
  {
    if a == [] {
      assert a + b == b;
    } else {
      var s := a + b;
      assert s[0] == a[0] && s[1..] == a[1..] + b;
      CollectedConcat(callback, a[1..], b);
      assert Collected(callback, s) == Pushed(callback(a[0])) + Collected(callback, a[1..] + b);
    }
  }

  lemma CollectedSnoc(callback: Visit -> Option<string>, vs: seq<Visit>, i: nat)
    requires i < |vs|
    ensures Collected(callback, vs[..i + 1]) == Collected(callback, vs[..i]) + Pushed(callback(vs[i]))
  {
    CollectedConcat(callback, vs[..i], [vs[i]]);
    assert vs[..i + 1] == vs[..i] + [vs[i]];
    assert Collected(callback, [vs[i]]) == Pushed(callback(vs[i])) + Collected(callback, []);
  }

  /** A message is pushed for exactly the visits the callback reports. */
  lemma {:induction false} CollectedExactly(callback: Visit -> Option<string>, vs: seq<Visit>, m: string)
    ensures m in Collected(callback, vs) <==> exists v :: v in vs && callback(v) == Some(m)
    decreases vs
  {
    if vs != [] {
      CollectedExactly(callback, vs[1..], m);
      if callback(vs[0]) == Some(m) {
        assert vs[0] in vs;
      }
      forall v | v in vs[1..] ensures v in vs { }
      if exists v :: v in vs && callback(v) == Some(m) {
        var v :| v in vs && callback(v) == Some(m);
        if v != vs[0] {
          assert v in vs[1..];
        }
      }
    }
  }

  /** The top-level directories the directory pass walks, in order. */
  const CheckedDirs: seq<string> := ["app", "components", "hooks", "lib"]

  /** What the directory pass pushes for `dirs`. */
  function DirectoryErrors(root: string, listing: map<string, seq<Entry>>, dirs: seq<string>): seq<string>
    decreases dirs
  {
    if dirs == [] then []
    else Collected(Callback(DirectoryRule, root), Walk(listing, dirs[0])) + DirectoryErrors(root, listing, dirs[1..])
  }

  lemma DirectoryErrorsStep(root: string, listing: map<string, seq<Entry>>, dirs: seq<string>, k: nat)
    requires k < |dirs|
    ensures DirectoryErrors(root, listing, dirs[k..])
      == Collected(Callback(DirectoryRule, root), Walk(listing, dirs[k])) + DirectoryErrors(root, listing, dirs[k + 1..])
  {
    assert dirs[k..][1..] == dirs[k + 1..];
  }

  /** Everything the script pushes: the directory pass over the four
      directories, then the component pass, then the hook pass. */
  function AllErrors(root: string, listing: map<string, seq<Entry>>): seq<string> {
    DirectoryErrors(root, listing, CheckedDirs)
    + Collected(Callback(ComponentRule, root), Walk(listing, "components"))
    + Collected(Callback(HookRule, root), Walk(listing, "hooks"))
  }

  lemma AppendThree<T>(a: seq<T>, b: seq<T>, c: seq<T>)
    ensures a + b + c == a + (b + c)
  {
  }

  lemma AppendFour<T>(a: seq<T>, b: seq<T>, c: seq<T>, d: seq<T>)
    ensures a + b + c + d == a + (b + c + d)
  {
  }

  /** The lines the script writes: the banner, then either the violations
      under a heading or the all-clear line. */
  function Report(errors: seq<string>): (r: seq<string>)
    ensures |r| >= 2 && r[0] == "Running Custom Rule Validation..."
    ensures errors == [] ==> r == ["Running Custom Rule Validation...", "All custom rule checks passed."]
    ensures errors != [] ==> r[1] == "Found Rule Violations:" && r[2..] == errors
  {
    ["Running Custom Rule Validation..."]
    + (if errors == [] then ["All custom rule checks passed."] else ["Found Rule Violations:"] + errors)
  }

  // ---------------------------------------------------------------- the run

  /** The script's state: the module-level `ERRORS` list. */
  class Validator {
    var errors: seq<string>

    constructor ()
      ensures errors == []
    {
      errors := [];
    }

    /** One `walk` with a callback: the messages are pushed in visiting
        order, after those already there. */
    method Pass(callback: Visit -> Option<string>, visits: seq<Visit>)
      modifies this
      ensures errors == old(errors) + Collected(callback, visits)
    {
      var i := 0;
      while i < |visits|
        invariant 0 <= i <= |visits|
        invariant errors == old(errors) + Collected(callback, visits[..i])
      {
        var message := callback(visits[i]);
        CollectedSnoc(callback, visits, i);
        AppendThree(old(errors), Collected(callback, visits[..i]), Pushed(message));
        if message.Some? {
          errors := errors + [message.value];
        }
        i := i + 1;
      }
      assert visits[..i] == visits;
    }

    /** The directory pass: one `walk` with the directory rule per entry of
        `dirs`, in order. */
    method DirectoryPass(root: string, listing: map<string, seq<Entry>>, dirs: seq<string>)
      modifies this
      ensures errors == old(errors) + DirectoryErrors(root, listing, dirs)
    {
      var k := 0;
      while k < |dirs|
        invariant 0 <= k <= |dirs|
        invariant errors + DirectoryErrors(root, listing, dirs[k..]) == old(errors) + DirectoryErrors(root, listing, dirs)
      {
        ghost var before := errors;
        Pass(Callback(DirectoryRule, root), Walk(listing, dirs[k]));
        DirectoryErrorsStep(root, listing, dirs, k);
        AppendThree(before, Collected(Callback(DirectoryRule, root), Walk(listing, dirs[k])),
          DirectoryErrors(root, listing, dirs[k + 1..]));
        k := k + 1;
      }
      assert dirs[k..] == [];
    }

    /** The whole script. The returned exit code is always 0: violations are
        reported but never fail the run. */
    method Run(root: string, listing: map<string, seq<Entry>>) returns (exitCode: int, output: seq<string>)
      modifies this
      ensures errors == old(errors) + AllErrors(root, listing)
      ensures output == Report(errors)
      ensures exitCode == 0
    {
      DirectoryPass(root, listing, CheckedDirs);
      Pass(Callback(ComponentRule, root), Walk(listing, "components"));
      Pass(Callback(HookRule, root), Walk(listing, "hooks"));
      AppendFour(old(errors), DirectoryErrors(root, listing, CheckedDirs),
        Collected(Callback(ComponentRule, root), Walk(listing, "components")),
        Collected(Callback(HookRule, root), Walk(listing, "hooks")));
      output := Report(errors);
      exitCode := 0;
    }
  }

  // ---------------------------------------------------------------- consequences

  /** Letters and digits only. */
  predicate AlnumString(s: string) {
    forall i :: 0 <= i < |s| ==> IsAsciiAlnum(s[i])
  }

  /** The same test, from index `i` on, written so that it can be evaluated
      on a literal. */
  predicate AlnumFrom(s: string, i: nat)
    decreases |s| - i
  {
    i >= |s| || (IsAsciiAlnum(s[i]) && AlnumFrom(s, i + 1))
  }

  lemma {:induction false} AlnumFromAll(s: string, i: nat)
    requires AlnumFrom(s, i)
    ensures forall k :: i <= k < |s| ==> IsAsciiAlnum(s[k])
    decreases |s| - i
  {
    if i < |s| {
      AlnumFromAll(s, i + 1);
    }
  }

  /** An alphanumeric text has no `.tsx` in it. */
  lemma NoTsxInAlnum(x: string)
    requires AlnumString(x)
    ensures !Includes(x, ".tsx")
  {
    FirstCharAbsent(x, ".tsx");
  }

  /** A component named `Base.tsx` with an alphanumeric `Base` is reported
      exactly when `Base` does not start with a capital letter. */
  lemma PlainComponentName(path: string, base: string)
    requires AlnumString(base) && base != [] && base != "index"
    requires !Includes(path, "components/ui") && !Includes(path, "components\\ui")
    ensures ComponentCheck(Visit(path, base + ".tsx", false)).Some? <==> !IsAsciiUpper(base[0])
  {
    NoTsxInAlnum(base);
    TsxName(base);
  }

  /** A component whose name carries a second extension,
      `Base.ext.tsx`, is always reported: removing `.tsx` leaves the dot of
      the first extension in the stem. */
  lemma DottedComponentName(path: string, base: string, ext: string)
    requires AlnumString(base) && AlnumString(ext) && !StartsWith(ext, "tsx")
    requires !Includes(path, "components/ui") && !Includes(path, "components\\ui")
    ensures ComponentCheck(Visit(path, base + "." + ext + ".tsx", false)).Some?
  {
    var x := base + "." + ext;
    DottedStemHasNoTsx(base, ext);
    assert x[|base|] == '.';
    TsxName(x);
  }

  /** `x + ".tsx"`, for an `x` without `.tsx` in it, ends in `.tsx`, has the
      stem `x`, and is `index.tsx` only for `x == "index"`. */
  lemma TsxName(x: string)
    requires !Includes(x, ".tsx")
    ensures EndsWith(x + ".tsx", ".tsx") && ComponentStem(x + ".tsx") == x
    ensures x + ".tsx" == "index.tsx" <==> x == "index"
  {
    ReplaceFirstAppended(x, ".tsx", "");
    assert x + "" == x;
    assert (x + ".tsx")[|x|..] == ".tsx";
    assert (x + ".tsx")[..|x|] == x;
  }

  lemma DottedStemHasNoTsx(base: string, ext: string)
    requires AlnumString(base) && AlnumString(ext) && !StartsWith(ext, "tsx")
    ensures !Includes(base + "." + ext, ".tsx")
  {
    var tail := "." + ext;
    FirstCharAbsent(ext, ".tsx");
    assert !StartsWith(tail, ".tsx") by {
      if |ext| >= 3 {
        assert tail[..4][1..] == ext[..3];
        assert ".tsx"[1..] == "tsx";
      }
    }
    assert tail[1..] == ext;
    IncludesSkip(base, tail, ".tsx");
    assert base + "." + ext == base + tail;
  }

  /** `HeroScene.client.tsx` is reported wherever it sits outside
      `components/ui`. */
  lemma DottedComponentExample(path: string, name: string)
    requires name == "HeroScene.client.tsx"
    requires !Includes(path, "components/ui") && !Includes(path, "components\\ui")
    ensures ComponentCheck(Visit(path, name, false)).Some?
  {
    var base, ext := DottedExampleParts(name);
    DottedComponentName(path, base, ext);
  }

  /** `HeroScene.client.tsx` split into its two alphanumeric parts. */
  lemma DottedExampleParts(name: string) returns (base: string, ext: string)
    requires name == "HeroScene.client.tsx"
    ensures AlnumString(base) && AlnumString(ext) && !StartsWith(ext, "tsx")
    ensures name == base + "." + ext + ".tsx"
  {
    base, ext := "HeroScene", "client";
    assert AlnumFrom("HeroScene", 0) && AlnumFrom("client", 0);
    AlnumFromAll("HeroScene", 0);
    AlnumFromAll("client", 0);
    assert ext[0] != 't';
  }

  /** `Vault.tsx` is not reported. */
  lemma PlainComponentExample(path: string, name: string)
    requires name == "Vault.tsx"
    requires !Includes(path, "components/ui") && !Includes(path, "components\\ui")
    ensures ComponentCheck(Visit(path, name, false)).None?
  {
    var base := "Vault";
    assert AlnumFrom(base, 0);
    AlnumFromAll(base, 0);
    PlainComponentName(path, base);
    assert base + ".tsx" == name;
  }

  /** The `components/ui` test is a substring test: a sibling directory
      whose name merely starts with `ui` is skipped as well. */
  lemma UiPrefixSkipsSiblings(rest: string, name: string)
    ensures ComponentCheck(Visit("components/ui" + rest, name, false)).None?
  {
    assert OccursAt("components/ui" + rest, "components/ui", 0);
    OccursThenIncludes("components/ui" + rest, "components/ui", 0);
  }

  /** A hook file `stem.ts` or `stem.tsx` with an alphanumeric stem other
      than `index` gets the `use` error when the stem lacks the prefix and no
      error otherwise: such a stem that starts with `use` is already
      camelCase, so the camelCase error needs a character outside
      `[a-zA-Z0-9]`. */
  lemma PlainHookName(path: string, stem: string, ext: string)
    requires AlnumString(stem) && stem != "index"
    requires ext == ".ts" || ext == ".tsx"
    ensures HookCheck(Visit(path, stem + ext, false)) ==
      if StartsWith(stem, "use") then None else Some(HookUseMessage + path)
  {
    HookStemOf(stem, ext);
    NoDotTest(stem, ext, ".test.");
    NoDotTest(stem, ext, ".spec.");
    if StartsWith(stem, "use") {
      assert stem[0] == 'u';
    }
  }

  /** The stem of `stem + ext` is `stem` when `stem` has no dot. */
  lemma HookStemOf(stem: string, ext: string)
    requires forall k :: 0 <= k < |stem| ==> stem[k] != '.'
    requires ext == ".ts" || ext == ".tsx"
    ensures EndsWith(stem + ext, ".ts") || EndsWith(stem + ext, ".tsx")
    ensures HookStem(stem + ext) == stem
    ensures stem != "index" ==> stem + ext != "index.ts"
  {
    var name := stem + ext;
    if ext == ".ts" && |stem| == 5 {
      assert name[..5] == stem;
    }
    assert name[|stem|..] == ext;
    assert name[|name| - 1] == ext[|ext| - 1];
    assert name[..|stem|] == stem;
  }

  /** A dotted pattern longer than the extension does not occur in
      `stem + ext` when the stem has no dot. */
  lemma NoDotTest(stem: string, ext: string, p: string)
    requires forall k :: 0 <= k < |stem| ==> stem[k] != '.'
    requires |p| > |ext| && p[0] == '.'
    ensures !Includes(stem + ext, p)
  {
    IncludesSkip(stem, ext, p);
    IncludesNotLonger(ext, p);
  }

  /** `useVaultScroll.ts` passes. */
  lemma HookPassExample(path: string, name: string)
    requires name == "useVaultScroll.ts"
    ensures HookCheck(Visit(path, name, false)).None?
  {
    var stem := "useVaultScroll";
    ExampleStem(stem);
    PlainHookName(path, stem, ".ts");
    assert stem + ".ts" == name;
  }

  /** `vaultScroll.ts` gets the `use` error. */
  lemma HookUseExample(path: string, name: string)
    requires name == "vaultScroll.ts"
    ensures HookCheck(Visit(path, name, false)) == Some(HookUseMessage + path)
  {
    var stem := "vaultScroll";
    ExampleStem(stem);
    PlainHookName(path, stem, ".ts");
    assert stem + ".ts" == name;
  }

  /** The facts about the two example stems that the hook test looks at. */
  lemma ExampleStem(stem: string)
    requires stem == "useVaultScroll" || stem == "vaultScroll"
    ensures AlnumString(stem) && stem != "index"
    ensures StartsWith(stem, "use") <==> stem == "useVaultScroll"
  {
    if stem == "useVaultScroll" {
      assert AlnumFrom("useVaultScroll", 0);
      AlnumFromAll("useVaultScroll", 0);
      assert StartsWith(stem, "use");
    } else {
      assert AlnumFrom("vaultScroll", 0);
      AlnumFromAll("vaultScroll", 0);
      assert stem[0] != 'u';
    }
  }

  /** A hook name with a hyphen after `use` gets the camelCase error. */
  lemma HyphenatedHook(path: string, name: string)
    requires name == "use-vault.ts"
    ensures HookCheck(Visit(path, name, false)) == Some(HookCamelMessage + path)
  {
    var stem := HyphenatedParts(name);
    HookStemOf(stem, ".ts");
    NoDotTest(stem, ".ts", ".test.");
    NoDotTest(stem, ".ts", ".spec.");
  }

  /** The stem of `use-vault.ts`: it starts with `use`, has no dot and is not
      camelCase. */
  lemma HyphenatedParts(name: string) returns (stem: string)
    requires name == "use-vault.ts"
    ensures name == stem + ".ts" && stem != "index"
    ensures forall k :: 0 <= k < |stem| ==> stem[k] != '.'
    ensures StartsWith(stem, "use") && !CheckCamelCase(stem)
  {
    stem := "use-vault";
    assert !IsAsciiAlnum(stem[3]);
  }
}
