/** Rendered share sections and the parsers that read them back. */
module Shares {
  import opened Text

  datatype Share = Share(name: string, description: string, path: string, readOnly: bool, guestAccess: bool,
                         allowedPrincipals: seq<string>, deniedPrincipals: seq<string>, encryption: string,
                         signing: string, auditProfile: string, aclModel: string, vfsModules: seq<string>,
                         maxConnections: int)

  predicate Letter(c: char) {
    'a' <= c <= 'z' || 'A' <= c <= 'Z' || IsDigit(c)
  }

  predicate NoControl(s: string) {
    '\0' !in s && '\r' !in s && '\n' !in s
  }

  predicate ValidName(s: string) {
    0 < |s| <= 80 && forall i :: 0 <= i < |s| ==> Letter(s[i]) || s[i] in "._$-"
  }

  predicate SingleLine(s: string, limit: nat) {
    !Blank(s) && |s| <= limit && NoControl(s)
  }

  predicate ValidPrincipal(s: string) {
    SingleLine(s, 256) && forall i :: 0 <= i < |s| ==> Letter(s[i]) || s[i] in "._$@ -\\"
  }

  /** `validateShare`, of a path only that it is present and on one line. */
  predicate Valid(s: Share) {
    && ValidName(s.name)
    && s.path != "" && NoControl(s.path)
    && !s.guestAccess
    && SingleLine(s.description, 255)
    && 0 < |s.allowedPrincipals| <= 256 && |s.deniedPrincipals| <= 256
    && (forall p :: p in s.allowedPrincipals + s.deniedPrincipals ==> ValidPrincipal(p))
    && s.encryption in {"disabled", "desired", "required"}
    && s.signing in {"default", "mandatory"}
    && s.auditProfile in {"off", "minimum", "security", "changes", "complete"}
    && s.aclModel in {"posix", "nfsv4", "none"}
    && |s.vfsModules| <= 8
    && (forall m :: m in s.vfsModules ==> m in {"acl_xattr", "recycle", "full_audit"})
    && 1 <= s.maxConnections <= 10000
  }

  /** `strings.Join(words, " ")`. */
  function Join(words: seq<string>): string {
    if |words| == 0 then "" else if |words| == 1 then words[0] else words[0] + " " + Join(words[1..])
  }

  function YesNo(v: bool): string {
    if v then "yes" else "no"
  }

  function Encryption(s: Share): string {
    if s.encryption == "disabled" then "off" else s.encryption
  }

  function ValidUsers(s: Share): string {
    var joined := Join(s.allowedPrincipals);
    if joined == "" then "@EBSERHNET\\Domain Users" else joined
  }

  datatype Setting = Setting(key: string, value: string)

  function Line(o: Setting): string {
    "  " + o.key + " = " + o.value
  }

  /** The settings of a section, in order. */
  function Settings(s: Share): seq<Setting> {
    [Setting("comment", s.description), Setting("path", s.path), Setting("browseable", "yes"),
     Setting("read only", YesNo(s.readOnly)), Setting("guest ok", "no"), Setting("server smb encrypt", Encryption(s)),
     Setting("server signing", s.signing), Setting("valid users", ValidUsers(s)), Setting("vfs objects", Join(s.vfsModules))]
  }

  function Header(name: string): string {
    "[" + name + "]"
  }

  function SettingLines(settings: seq<Setting>): (lines: seq<string>)
    ensures |lines| == |settings| && forall i :: 0 <= i < |lines| ==> lines[i] == Line(settings[i])
  {
    seq(|settings|, i requires 0 <= i < |settings| => Line(settings[i]))
  }

  function Lines(s: Share): seq<string> {
    [Header(s.name)] + SettingLines(Settings(s))
  }

  /** Every line followed by a newline. */
  function Unlines(lines: seq<string>): string {
    if lines == [] then "" else lines[0] + "\n" + Unlines(lines[1..])
  }

  function RenderShare(s: Share): string {
    Unlines(Lines(s))
  }

  /** A configuration made of rendered sections. */
  function RenderAll(shares: seq<Share>): string {
    if shares == [] then "" else RenderShare(shares[0]) + RenderAll(shares[1..])
  }

  /** `strings.Split(s, "\n")`. */
  function Split(s: string): (lines: seq<string>)
    ensures lines != []
  {
    if s == "" then [""]
    else
      var rest := Split(s[1..]);
      if s[0] == '\n' then [""] + rest else [[s[0]] + rest[0]] + rest[1..]
  }

  function Lower(c: char): char {
    if 'A' <= c <= 'Z' then c - 'A' + 'a' else c
  }

  /** `strings.ToLower` on ASCII text; no other letter lowers to one of a text compared with here. */
  function ToLower(s: string): (t: string)
    ensures |t| == |s| && forall i :: 0 <= i < |s| ==> t[i] == Lower(s[i])
  {
    seq(|s|, i requires 0 <= i < |s| => Lower(s[i]))
  }

  /** The share a line opens. */
  function ShareOf(line: string): Option<string> {
    var t := TrimSpace(line);
    if |t| >= 2 && t[0] == '[' && t[|t| - 1] == ']' && ToLower(t) != "[global]" then Some(t[1..|t| - 1]) else None
  }

  function SharesIn(lines: seq<string>): seq<string> {
    if lines == [] then []
    else
      var rest := SharesIn(lines[..|lines| - 1]);
      var share := ShareOf(lines[|lines| - 1]);
      if share.Some? then rest + [share.value] else rest
  }

  /** `strings.SplitN(line, "=", 2)` when there is an equals sign. */
  function Cut(line: string): Option<(string, string)> {
    if line == "" then None
    else if line[0] == '=' then Some(("", line[1..]))
    else
      var rest := Cut(line[1..]);
      if rest.Some? then Some(([line[0]] + rest.value.0, rest.value.1)) else None
  }

  function WordLength(s: string): (n: nat)
    ensures n <= |s| && (s != "" && !IsSpace(s[0]) ==> n > 0)
  {
    if s == "" || IsSpace(s[0]) then 0 else 1 + WordLength(s[1..])
  }

  /** `strings.Fields`. */
  function Fields(s: string): seq<string>
    decreases |s|
  {
    if s == "" then []
    else if IsSpace(s[0]) then Fields(s[1..])
    else
      var n := WordLength(s);
      [s[..n]] + Fields(s[n..])
  }

  /** The modules a line names. */
  function ModulesOf(line: string): seq<string> {
    var parts := Cut(line);
    if parts.Some? && TrimSpace(ToLower(parts.value.0)) == "vfs objects" then Fields(parts.value.1) else []
  }

  function SetOf(words: seq<string>): set<string> {
    set m | m in words
  }

  function ModulesIn(lines: seq<string>): set<string> {
    if lines == [] then {} else ModulesIn(lines[..|lines| - 1]) + SetOf(ModulesOf(lines[|lines| - 1]))
  }

  method ParseSambaShares(config: string) returns (shares: seq<string>)
    ensures shares == SharesIn(Split(config))
  {
    shares := [];
    var lines := Split(config);
    for i := 0 to |lines|
      invariant shares == SharesIn(lines[..i])
    {
      assert lines[..i + 1][..i] == lines[..i];
      var trimmed := TrimSpace(lines[i]);
      if |trimmed| >= 2 && trimmed[0] == '[' && trimmed[|trimmed| - 1] == ']' && ToLower(trimmed) != "[global]" {
        shares := shares + [trimmed[1..|trimmed| - 1]];
      }
    }
    assert lines[..|lines|] == lines;
  }

  /** Every module some line names, each once, in no particular order. */
  method ParseVFSModules(config: string) returns (values: seq<string>)
    ensures forall m :: m in values <==> m in ModulesIn(Split(config))
    ensures forall i, j :: 0 <= i < j < |values| ==> values[i] != values[j]
  {
    var modules: set<string> := {};
    var lines := Split(config);
    for i := 0 to |lines|
      invariant modules == ModulesIn(lines[..i])
    {
      ModulesInStep(lines, i);
      modules := modules + SetOf(ModulesOf(lines[i]));
    }
    assert lines[..|lines|] == lines;
    values := Listed(modules);
  }

  lemma ModulesInStep(lines: seq<string>, i: nat)
    requires i < |lines|
    ensures ModulesIn(lines[..i + 1]) == ModulesIn(lines[..i]) + SetOf(ModulesOf(lines[i]))
  {
    assert lines[..i + 1][..i] == lines[..i];
  }

  /** The keys of a map of flags, in no particular order. */
  method Listed(found: set<string>) returns (values: seq<string>)
    ensures forall m :: m in values <==> m in found
    ensures forall i, j :: 0 <= i < j < |values| ==> values[i] != values[j]
  {
    values := [];
    var rest := found;
    while rest != {}
      invariant rest <= found
      invariant forall m :: m in values <==> m in found && m !in rest
      invariant forall i, j :: 0 <= i < j < |values| ==> values[i] != values[j]
      decreases |rest|
    {
      var m :| m in rest;
      assert forall x :: x in values + [m] <==> x in values || x == m;
      values := values + [m];
      rest := rest - {m};
    }
  }

  // ---------- Lines ----------

  /** A line is split off at its newline. */
  lemma {:induction false} SplitLine(line: string, rest: string)
    requires OneLine(line)
    ensures Split(line + "\n" + rest) == [line] + Split(rest)
  {
    var s := line + "\n" + rest;
    if line == "" {
      assert s[1..] == rest;
    } else {
      assert s[1..] == line[1..] + "\n" + rest && s[0] == line[0];
      SplitLine(line[1..], rest);
      assert [line[0]] + line[1..] == line;
    }
  }

  lemma {:induction false} SplitUnlines(lines: seq<string>)
    requires forall i :: 0 <= i < |lines| ==> OneLine(lines[i])
    ensures Split(Unlines(lines)) == lines + [""]
  {
    if lines != [] {
      SplitLine(lines[0], Unlines(lines[1..]));
      SplitUnlines(lines[1..]);
    }
  }

  lemma {:induction false} UnlinesAppend(a: seq<string>, b: seq<string>)
    ensures Unlines(a + b) == Unlines(a) + Unlines(b)
  {
    if a == [] {
      assert a + b == b;
    } else {
      UnlinesAppend(a[1..], b);
      assert (a + b)[1..] == a[1..] + b;
    }
  }

  function AllLines(shares: seq<Share>): seq<string> {
    if shares == [] then [] else Lines(shares[0]) + AllLines(shares[1..])
  }

  lemma {:induction false} RenderAllLines(shares: seq<Share>)
    ensures RenderAll(shares) == Unlines(AllLines(shares))
  {
    if shares != [] {
      RenderAllLines(shares[1..]);
      UnlinesAppend(Lines(shares[0]), AllLines(shares[1..]));
    }
  }

  lemma {:induction false} SharesInAppend(a: seq<string>, b: seq<string>)
    ensures SharesIn(a + b) == SharesIn(a) + SharesIn(b)
  {
    if b == [] {
      assert a + b == a;
    } else {
      var n := |b| - 1;
      SharesInAppend(a, b[..n]);
      assert (a + b)[..|a + b| - 1] == a + b[..n];
    }
  }

  // ---------- Settings ----------

  /** A setting's key: lower-case words. */
  predicate PlainKey(k: string) {
    k != "" && k[0] != ' ' && k[|k| - 1] != ' ' && forall i :: 0 <= i < |k| ==> 'a' <= k[i] <= 'z' || k[i] == ' '
  }

  predicate Plain(o: Setting) {
    PlainKey(o.key) && OneLine(o.value)
  }

  lemma {:induction false} TrimRightKeepsFirst(s: string)
    requires s != "" && !IsSpace(s[0])
    ensures TrimRight(s) != "" && TrimRight(s)[0] == s[0]
  {
    if |s| > 1 && IsSpace(s[|s| - 1]) {
      TrimRightKeepsFirst(s[..|s| - 1]);
    }
  }

  lemma TrimIndented(s: string)
    requires s != "" && !IsSpace(s[0])
    ensures TrimLeft("  " + s) == s
  {
    assert ("  " + s)[1..] == " " + s;
    assert (" " + s)[1..] == s;
    assert TrimLeft(s) == s;
  }

  /** A setting line opens no share. */
  lemma SettingOpensNothing(o: Setting)
    requires Plain(o)
    ensures ShareOf(Line(o)).None?
  {
    var s := o.key + " = " + o.value;
    assert Line(o) == "  " + s;
    TrimIndented(s);
    TrimRightKeepsFirst(s);
  }

  lemma {:induction false} CutAt(a: string, b: string)
    requires '=' !in a
    ensures Cut(a + "=" + b) == Some((a, b))
  {
    var s := a + "=" + b;
    if a == "" {
      assert s[1..] == b;
    } else {
      assert s[1..] == a[1..] + "=" + b && s[0] == a[0];
      CutAt(a[1..], b);
      assert [a[0]] + a[1..] == a;
    }
  }

  lemma TrimKey(k: string)
    requires PlainKey(k)
    ensures TrimSpace(ToLower("  " + k + " ")) == k
  {
    var t := k + " ";
    assert ToLower("  " + k + " ") == "  " + t;
    TrimIndented(t);
    assert t[..|t| - 1] == k;
    assert TrimRight(k) == k;
  }

  lemma SettingModules(o: Setting)
    requires Plain(o)
    ensures ModulesOf(Line(o)) == if o.key == "vfs objects" then Fields(" " + o.value) else []
  {
    var a := "  " + o.key + " ";
    assert Line(o) == a + "=" + (" " + o.value);
    CutAt(a, " " + o.value);
    TrimKey(o.key);
  }

  // ---------- Words ----------

  predicate Word(w: string) {
    w != "" && forall i :: 0 <= i < |w| ==> !IsSpace(w[i])
  }

  lemma {:induction false} WordEnds(w: string, rest: string)
    requires forall i :: 0 <= i < |w| ==> !IsSpace(w[i])
    requires rest == "" || IsSpace(rest[0])
    ensures WordLength(w + rest) == |w|
  {
    if w == "" {
      assert w + rest == rest;
    } else {
      assert (w + rest)[1..] == w[1..] + rest;
      WordEnds(w[1..], rest);
    }
  }

  lemma FieldsWord(w: string, rest: string)
    requires Word(w) && (rest == "" || IsSpace(rest[0]))
    ensures Fields(w + rest) == [w] + Fields(rest)
  {
    WordEnds(w, rest);
    assert (w + rest)[..|w|] == w && (w + rest)[|w|..] == rest;
  }

  lemma FieldsSpace(s: string)
    ensures Fields(" " + s) == Fields(s)
  {
    assert (" " + s)[1..] == s;
  }

  /** Joined words are read back. */
  lemma {:induction false} FieldsJoin(words: seq<string>)
    requires forall i :: 0 <= i < |words| ==> Word(words[i])
    ensures Fields(Join(words)) == words
  {
    if |words| == 1 {
      assert words[0] + "" == words[0];
      FieldsWord(words[0], "");
    } else if |words| > 1 {
      var w, rest := words[0], Join(words[1..]);
      assert Join(words) == w + (" " + rest);
      FieldsWord(w, " " + rest);
      FieldsSpace(rest);
      FieldsJoin(words[1..]);
    }
  }

  // ---------- Sections ----------

  lemma {:induction false} JoinOneLine(words: seq<string>)
    requires forall i :: 0 <= i < |words| ==> OneLine(words[i])
    ensures OneLine(Join(words))
  {
    if |words| > 1 {
      JoinOneLine(words[1..]);
    }
  }

  lemma SettingsPlain(s: Share)
    requires Valid(s)
    ensures forall i :: 0 <= i < |Settings(s)| ==> Plain(Settings(s)[i])
  {
    KeysPlain();
    ValuesOneLine(s);
  }

  lemma KeysPlain()
    ensures PlainKey("comment") && PlainKey("path") && PlainKey("browseable") && PlainKey("read only")
    ensures PlainKey("guest ok") && PlainKey("server smb encrypt") && PlainKey("server signing")
    ensures PlainKey("valid users") && PlainKey("vfs objects")
  {
  }

  lemma ValuesOneLine(s: Share)
    requires Valid(s)
    ensures OneLine(Encryption(s)) && OneLine(s.signing) && OneLine(YesNo(s.readOnly))
    ensures OneLine(ValidUsers(s)) && OneLine(Join(s.vfsModules))
  {
    forall i | 0 <= i < |s.allowedPrincipals| ensures OneLine(s.allowedPrincipals[i]) {
      assert s.allowedPrincipals[i] in s.allowedPrincipals + s.deniedPrincipals;
    }
    JoinOneLine(s.allowedPrincipals);
    forall i | 0 <= i < |s.vfsModules| ensures OneLine(s.vfsModules[i]) {
      assert s.vfsModules[i] in s.vfsModules;
    }
    JoinOneLine(s.vfsModules);
  }

  lemma LinesPlain(s: Share)
    requires Valid(s)
    ensures forall i :: 0 <= i < |Lines(s)| ==> OneLine(Lines(s)[i])
  {
    SettingsPlain(s);
  }

  lemma {:induction false} SettingsOpenNothing(settings: seq<Setting>)
    requires forall i :: 0 <= i < |settings| ==> Plain(settings[i])
    ensures SharesIn(SettingLines(settings)) == []
  {
    if settings != [] {
      var n := |settings| - 1;
      SettingsOpenNothing(settings[..n]);
      assert SettingLines(settings)[..n] == SettingLines(settings[..n]);
      SettingOpensNothing(settings[n]);
    }
  }

  /** The header opens its share unless that is a case variant of "global". */
  predicate Global(name: string) {
    ToLower(name) == "global"
  }

  lemma HeaderOpens(name: string)
    ensures ShareOf(Header(name)) == if Global(name) then None else Some(name)
  {
    var h := Header(name);
    TrimSpaceUnchanged(h);
    assert ToLower(h) == "[" + ToLower(name) + "]";
    assert "[global]"[1..7] == "global";
    assert ToLower(h)[1..|h| - 1] == ToLower(name);
    assert h[1..|h| - 1] == name;
  }

  function Kept(name: string): seq<string> {
    if Global(name) then [] else [name]
  }

  function KeptNames(shares: seq<Share>): seq<string> {
    if shares == [] then [] else Kept(shares[0].name) + KeptNames(shares[1..])
  }

  function ShareNames(shares: seq<Share>): seq<string> {
    seq(|shares|, i requires 0 <= i < |shares| => shares[i].name)
  }

  lemma SectionOpens(s: Share)
    requires Valid(s)
    ensures SharesIn(Lines(s)) == Kept(s.name)
  {
    SettingsPlain(s);
    SettingsOpenNothing(Settings(s));
    SharesInAppend([Header(s.name)], SettingLines(Settings(s)));
    HeaderOpens(s.name);
  }

  lemma {:induction false} SectionsOpen(shares: seq<Share>)
    requires forall i :: 0 <= i < |shares| ==> Valid(shares[i])
    ensures SharesIn(AllLines(shares)) == KeptNames(shares)
  {
    if shares != [] {
      SectionOpens(shares[0]);
      SectionsOpen(shares[1..]);
      var first, rest := Lines(shares[0]), AllLines(shares[1..]);
      SharesInAppend(first, rest);
    }
  }

  lemma {:induction false} AllLinesPlain(shares: seq<Share>)
    requires forall i :: 0 <= i < |shares| ==> Valid(shares[i])
    ensures forall i :: 0 <= i < |AllLines(shares)| ==> OneLine(AllLines(shares)[i])
  {
    if shares != [] {
      LinesPlain(shares[0]);
      AllLinesPlain(shares[1..]);
    }
  }

  lemma ConfigLines(shares: seq<Share>)
    requires forall i :: 0 <= i < |shares| ==> Valid(shares[i])
    ensures Split(RenderAll(shares)) == AllLines(shares) + [""]
  {
    AllLinesPlain(shares);
    RenderAllLines(shares);
    SplitUnlines(AllLines(shares));
  }

  lemma {:induction false} KeptNamesLength(shares: seq<Share>)
    ensures |KeptNames(shares)| <= |shares|
    ensures |KeptNames(shares)| == |shares| <==> forall i :: 0 <= i < |shares| ==> !Global(shares[i].name)
    ensures |KeptNames(shares)| == |shares| ==> KeptNames(shares) == ShareNames(shares)
  {
    if shares != [] {
      KeptNamesLength(shares[1..]);
      assert forall i :: 1 <= i < |shares| ==> shares[i] == shares[1..][i - 1];
    }
  }

  /**
    * Parsing the rendered sections of valid shares gives the names in order, without the case
    * variants of "global"; so it gives all of them exactly when there is no such name.
    */
  lemma NamesRoundTrip(shares: seq<Share>)
    requires forall i :: 0 <= i < |shares| ==> Valid(shares[i])
    ensures SharesIn(Split(RenderAll(shares))) == KeptNames(shares)
    ensures SharesIn(Split(RenderAll(shares))) == ShareNames(shares)
            <==> forall i :: 0 <= i < |shares| ==> !Global(shares[i].name)
  {
    ConfigLines(shares);
    SharesInAppend(AllLines(shares), [""]);
    EmptyLine();
    SectionsOpen(shares);
    KeptNamesLength(shares);
  }

  lemma EmptyLine()
    ensures SharesIn([""]) == [] && ModulesIn([""]) == {}
  {
    assert TrimSpace("") == "";
    assert [""][..0] == [];
    assert SharesIn([]) == [];
  }

  // ---------- Modules ----------

  lemma {:induction false} ModulesInAppend(a: seq<string>, b: seq<string>)
    ensures ModulesIn(a + b) == ModulesIn(a) + ModulesIn(b)
  {
    if b == [] {
      assert a + b == a;
    } else {
      var n := |b| - 1;
      ModulesInAppend(a, b[..n]);
      assert (a + b)[..|a + b| - 1] == a + b[..n];
    }
  }

  lemma {:induction false} NoCut(s: string)
    requires '=' !in s
    ensures Cut(s).None?
  {
    if s != "" {
      NoCut(s[1..]);
    }
  }

  lemma {:induction false} NothingNamed(lines: seq<string>)
    requires forall i :: 0 <= i < |lines| ==> ModulesOf(lines[i]) == []
    ensures ModulesIn(lines) == {}
  {
    if lines != [] {
      NothingNamed(lines[..|lines| - 1]);
    }
  }

  lemma HeaderNamesNothing(name: string)
    requires ValidName(name)
    ensures ModulesOf(Header(name)) == []
  {
    NoCut(Header(name));
  }

  lemma OnlyLastIsVfs(s: Share)
    ensures |Settings(s)| == 9 && Settings(s)[8] == Setting("vfs objects", Join(s.vfsModules))
    ensures forall i :: 0 <= i < 8 ==> Settings(s)[i].key != "vfs objects"
  {
  }

  lemma SettingNamesNothing(o: Setting)
    requires Plain(o) && o.key != "vfs objects"
    ensures ModulesOf(Line(o)) == []
  {
    SettingModules(o);
  }

  lemma SettingNamesWords(o: Setting, words: seq<string>)
    requires Plain(o) && o == Setting("vfs objects", Join(words)) && forall i :: 0 <= i < |words| ==> Word(words[i])
    ensures ModulesOf(Line(o)) == words
  {
    SettingModules(o);
    FieldsSpace(Join(words));
    FieldsJoin(words);
  }

  lemma LastNames(lines: seq<string>, words: seq<string>)
    requires lines != [] && ModulesOf(lines[|lines| - 1]) == words
    requires forall i :: 0 <= i < |lines| - 1 ==> ModulesOf(lines[i]) == []
    ensures ModulesIn(lines) == SetOf(words)
  {
    NothingNamed(lines[..|lines| - 1]);
  }

  /** Only the last line of a section names modules. */
  lemma SectionModules(s: Share)
    requires Valid(s)
    ensures ModulesIn(Lines(s)) == SetOf(s.vfsModules)
  {
    SettingsPlain(s);
    OnlyLastIsVfs(s);
    ModulesAreWords(s);
    var settings, lines := Settings(s), Lines(s);
    SettingNamesWords(settings[8], s.vfsModules);
    HeaderNamesNothing(s.name);
    forall i | 0 <= i < 8 ensures ModulesOf(Line(settings[i])) == [] {
      SettingNamesNothing(settings[i]);
    }
    forall i | 0 <= i < |lines| - 1 ensures ModulesOf(lines[i]) == [] {
      assert i == 0 || lines[i] == Line(settings[i - 1]);
    }
    LastNames(lines, s.vfsModules);
  }

  lemma ModulesAreWords(s: Share)
    requires Valid(s)
    ensures forall i :: 0 <= i < |s.vfsModules| ==> Word(s.vfsModules[i])
  {
    forall i | 0 <= i < |s.vfsModules| ensures Word(s.vfsModules[i]) {
      assert s.vfsModules[i] in s.vfsModules;
    }
  }

  function ModuleUnion(shares: seq<Share>): set<string> {
    set i, m | 0 <= i < |shares| && m in shares[i].vfsModules :: m
  }

  lemma UnionSplits(shares: seq<Share>)
    requires shares != []
    ensures ModuleUnion(shares) == SetOf(shares[0].vfsModules) + ModuleUnion(shares[1..])
  {
    var rest := shares[1..];
    assert forall i :: 1 <= i < |shares| ==> shares[i] == rest[i - 1];
    assert forall i :: 0 <= i < |rest| ==> rest[i] == shares[i + 1];
  }

  lemma {:induction false} SectionsModules(shares: seq<Share>)
    requires forall i :: 0 <= i < |shares| ==> Valid(shares[i])
    ensures ModulesIn(AllLines(shares)) == ModuleUnion(shares)
  {
    if shares != [] {
      SectionModules(shares[0]);
      SectionsModules(shares[1..]);
      ModulesInAppend(Lines(shares[0]), AllLines(shares[1..]));
      UnionSplits(shares);
    }
  }

  lemma EmptyEndNamesNothing(lines: seq<string>)
    ensures ModulesIn(lines + [""]) == ModulesIn(lines)
  {
    ModulesInAppend(lines, [""]);
    EmptyLine();
  }

  /** The modules parsed from rendered sections are those of the shares together. */
  lemma ModulesRoundTrip(shares: seq<Share>)
    requires forall i :: 0 <= i < |shares| ==> Valid(shares[i])
    ensures ModulesIn(Split(RenderAll(shares))) == ModuleUnion(shares)
  {
    ConfigLines(shares);
    var lines := AllLines(shares);
    EmptyEndNamesNothing(lines);
    SectionsModules(shares);
  }

  // ---------- Nothing printed is lost ----------

  lemma SameLineSameValue(o: Setting, p: Setting)
    requires Line(o) == Line(p) && o.key == p.key
    ensures o.value == p.value
  {
    var n := |"  " + o.key + " = "|;
    assert Line(o)[n..] == o.value && Line(p)[n..] == p.value;
  }

  lemma SameLines(a: Share, b: Share)
    requires Valid(a) && Valid(b) && RenderShare(a) == RenderShare(b)
    ensures Lines(a) == Lines(b)
  {
    LinesPlain(a);
    LinesPlain(b);
    SplitUnlines(Lines(a));
    SplitUnlines(Lines(b));
    assert Lines(a) == (Lines(a) + [""])[..|Lines(a)|];
    assert Lines(b) == (Lines(b) + [""])[..|Lines(b)|];
  }

  lemma SameSettings(a: Share, b: Share)
    requires Lines(a) == Lines(b)
    ensures a.name == b.name && Settings(a) == Settings(b)
  {
    assert Header(a.name) == Lines(a)[0] && Header(b.name) == Lines(b)[0];
    assert Header(a.name)[1..|a.name| + 1] == a.name && Header(b.name)[1..|b.name| + 1] == b.name;
    var x, y := Settings(a), Settings(b);
    forall i | 0 <= i < |x| ensures x[i] == y[i] {
      assert Line(x[i]) == Lines(a)[i + 1] && Line(y[i]) == Lines(b)[i + 1];
      SameLineSameValue(x[i], y[i]);
    }
  }

  /** Valid shares with the same rendered section agree on everything a section shows. */
  lemma RenderInjective(a: Share, b: Share)
    requires Valid(a) && Valid(b) && RenderShare(a) == RenderShare(b)
    ensures a.name == b.name && a.description == b.description && a.path == b.path && a.readOnly == b.readOnly
    ensures a.encryption == b.encryption && a.signing == b.signing && a.vfsModules == b.vfsModules
    ensures ValidUsers(a) == ValidUsers(b)
  {
    SameLines(a, b);
    SameSettings(a, b);
    ShownValues(a, b);
    ModulesAreWords(a);
    ModulesAreWords(b);
    FieldsJoin(a.vfsModules);
    FieldsJoin(b.vfsModules);
  }

  lemma ShownValues(a: Share, b: Share)
    requires Settings(a) == Settings(b)
    requires a.encryption in {"disabled", "desired", "required"} && b.encryption in {"disabled", "desired", "required"}
    ensures a.description == b.description && a.path == b.path && a.readOnly == b.readOnly && a.encryption == b.encryption
    ensures a.signing == b.signing && ValidUsers(a) == ValidUsers(b) && Join(a.vfsModules) == Join(b.vfsModules)
  {
    var x, y := Settings(a), Settings(b);
    assert x[0] == y[0] && x[1] == y[1] && x[3] == y[3] && x[5] == y[5] && x[6] == y[6] && x[7] == y[7] && x[8] == y[8];
  }

  /** What a section says, line by line: guests are always shut out, and the flags have their meaning. */
  lemma SectionShows(s: Share)
    requires Valid(s)
    ensures var lines := Lines(s);
            && |lines| == 10 && lines[0] == Header(s.name)
            && lines[1] == Line(Setting("comment", s.description)) && lines[2] == Line(Setting("path", s.path))
            && lines[4] == Line(Setting("read only", if s.readOnly then "yes" else "no"))
            && lines[5] == Line(Setting("guest ok", "no"))
            && lines[6] == Line(Setting("server smb encrypt", if s.encryption == "disabled" then "off" else s.encryption))
            && lines[7] == Line(Setting("server signing", s.signing))
            && lines[8] == Line(Setting("valid users", Join(s.allowedPrincipals)))
            && lines[9] == Line(Setting("vfs objects", Join(s.vfsModules)))
  {
    assert s.allowedPrincipals[0] in s.allowedPrincipals + s.deniedPrincipals;
    assert Join(s.allowedPrincipals) != "";
  }
}
