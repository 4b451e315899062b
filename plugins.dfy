/**
 * The plugin-registry script: it finds chart plugins under `plugins/`,
 * derives each one's class name, package name and registration key, and adds
 * the missing import and registration lines to `MainPreset.js` and the
 * missing dependencies to `package.json`. File contents are inputs and
 * results; nothing is read from or written to disk.
 */
module PluginRegistry {
  import opened Wrappers
  import opened Json
  import opened Text

  /** One directory yielded by `os.walk`: its path and its files with their text. */
  datatype DirEntry = DirEntry(path: string, files: map<string, string>)

  /** One entry of `plugins_data`: the class name, the package name and the key. */
  datatype Plugin = Plugin(name: string, package: string, key: string)

  const PackageScope := "@superset-ui"
  const ChartPrefix := "superset-plugin-chart-"
  const ClassTag := "export default class "
  const DependencyRoot := "file:./plugins/"

  /** A directory holding `index.js` or `index.ts`. */
  predicate HasIndex(d: DirEntry) {
    "index.js" in d.files || "index.ts" in d.files
  }

  /** A directory `find_plugins` selects: one holding an index file. */
  type PluginDir = d: DirEntry | HasIndex(d) witness DirEntry("", map["index.js" := ""])

  /** The plugin directories of a walk, in walk order; the reference for `find_plugins`. */
  function PluginDirs(walk: seq<DirEntry>): (r: seq<PluginDir>)
    ensures |r| <= |walk|
    ensures forall d :: d in r <==> d in walk && HasIndex(d)
  {
    if walk == [] then []
    else
      var front := PluginDirs(walk[..|walk| - 1]);
      var d := walk[|walk| - 1];
      assert walk == walk[..|walk| - 1] + [d];
      if HasIndex(d) then front + [d] else front
  }

  /** One more walked directory is selected, at the end, when it holds an index file. */
  lemma PluginDirsSnoc(walk: seq<DirEntry>, d: DirEntry)
    ensures PluginDirs(walk + [d]) == PluginDirs(walk) + (if HasIndex(d) then [d] else [])
  {
    assert (walk + [d])[..|walk|] == walk;
  }

  /** Selecting plugin directories distributes over concatenation: walk order is kept. */
  lemma {:induction false} PluginDirsConcat(a: seq<DirEntry>, b: seq<DirEntry>)
    ensures PluginDirs(a + b) == PluginDirs(a) + PluginDirs(b)
    decreases |b|
  {
    if b == [] {
      assert a + b == a;
    } else {
      var front, last := b[..|b| - 1], b[|b| - 1];
      assert b == front + [last] && a + b == (a + front) + [last];
      PluginDirsConcat(a, front);
      PluginDirsSnoc(a + front, last);
      PluginDirsSnoc(front, last);
    }
  }

  /**
   * The walked directory at position `i` is a plugin directory exactly when
   * it holds an index file, and comes after those before it and before
   * those after it.
   */
  lemma {:induction false} PluginDirsAt(walk: seq<DirEntry>, i: nat)
    requires i < |walk|
    ensures PluginDirs(walk)
            == PluginDirs(walk[..i]) + (if HasIndex(walk[i]) then [walk[i]] else [])
               + PluginDirs(walk[i + 1..])
  {
    assert walk == (walk[..i] + [walk[i]]) + walk[i + 1..];
    PluginDirsConcat(walk[..i] + [walk[i]], walk[i + 1..]);
    PluginDirsConcat(walk[..i], [walk[i]]);
    assert [walk[i]][..0] == [];
  }

  /** `find_plugins`: collects the walked directories that hold an index file. */
  method FindPlugins(walk: seq<DirEntry>) returns (dirs: seq<PluginDir>)
    ensures dirs == PluginDirs(walk)
  {
    dirs := [];
    var i := 0;
    while i < |walk|
      invariant 0 <= i <= |walk| && dirs == PluginDirs(walk[..i])
    {
      assert walk[..i + 1] == walk[..i] + [walk[i]];
      PluginDirsSnoc(walk[..i], walk[i]);
      if HasIndex(walk[i]) {
        dirs := dirs + [walk[i]];
      }
      i := i + 1;
    }
    assert walk[..i] == walk;
  }

  /** `export default class ` at index `i`, followed by at least one `\w` character. */
  ghost predicate ClassAt(s: string, i: int) {
    OccursAt(s, ClassTag, i) && i + |ClassTag| < |s| && IsWordChar(s[i + |ClassTag|])
  }

  /** The leftmost match of the class pattern at or after `from`. */
  function FirstClass(s: string, from: nat): (r: Option<nat>)
    requires from <= |s|
    ensures r.Some? ==> from <= r.value && ClassAt(s, r.value)
                        && forall k :: from <= k < r.value ==> !ClassAt(s, k)
    ensures r.None? ==> forall k :: from <= k ==> !ClassAt(s, k)
    decreases |s| - from
  {
    if from + |ClassTag| >= |s| then None
    else if s[from..from + |ClassTag|] == ClassTag && IsWordChar(s[from + |ClassTag|]) then Some(from)
    else FirstClass(s, from + 1)
  }

  /**
   * `re.search(r'export default class (\w+)', content)`: the word after the
   * leftmost match, or None when nothing matches.
   */
  function ClassName(content: string): (r: Option<string>)
    ensures r.None? <==> forall k :: !ClassAt(content, k)
    ensures r.Some? ==> exists j :: && ClassAt(content, j)
                                    && (forall k :: k < j ==> !ClassAt(content, k))
                                    && r.value == WordRun(content[j + |ClassTag|..])
    ensures r.Some? ==> r.value != [] && forall c :: c in r.value ==> IsWordChar(c)
  {
    match FirstClass(content, 0)
    case None => None
    case Some(j) =>
      var w := WordRun(content[j + |ClassTag|..]);
      assert content[j + |ClassTag|..][0] == content[j + |ClassTag|];
      Some(w)
  }

  /** `extract_plugin_name`: the class name in `index.js`, or in `index.ts` when there is no `index.js`. */
  function ExtractPluginName(d: DirEntry): (r: Option<string>)
    requires HasIndex(d)
    ensures "index.js" in d.files ==> r == ClassName(d.files["index.js"])
    ensures "index.js" !in d.files ==> r == ClassName(d.files["index.ts"])
  {
    ClassName(if "index.js" in d.files then d.files["index.js"] else d.files["index.ts"])
  }

  /** `generate_import_statement`. */
  function ImportStatement(name: string, package: string): string {
    "import " + name + " from '" + package + "';"
  }

  /** `generate_registration_statement`. */
  function RegistrationStatement(name: string, key: string): string {
    "new " + name + "().configure({ key: '" + key + "' }),"
  }

  /**
   * Splits `line` as `head + a + sep + b + tail`, with `a` ending before
   * the first `sep` after `head`.
   */
  function Split(line: string, head: string, sep: string, tail: string): (r: Option<(string, string)>)
    ensures r.Some? ==> head + r.value.0 + sep + r.value.1 + tail == line
  {
    if |line| < |head| + |tail| || line[..|head|] != head || line[|line| - |tail|..] != tail then None
    else
      var body := line[|head|..|line| - |tail|];
      match Find(body, sep, 0)
      case None => None
      case Some(i) =>
        SplitParts(line, head, sep, tail, i);
        Some((body[..i], body[i + |sep|..]))
  }

  /** The parts around an occurrence of `sep` in the body of `line` join back to `line`. */
  lemma SplitParts(line: string, head: string, sep: string, tail: string, i: nat)
    requires |head| + |tail| <= |line| && line[..|head|] == head && line[|line| - |tail|..] == tail
    requires OccursAt(line[|head|..|line| - |tail|], sep, i)
    ensures var body := line[|head|..|line| - |tail|];
            head + body[..i] + sep + body[i + |sep|..] + tail == line
  {
    var body := line[|head|..|line| - |tail|];
    assert body == body[..i] + sep + body[i + |sep|..];
    assert line == line[..|head|] + body + line[|line| - |tail|..];
  }

  /** Splitting a joined line gives back its parts when the first part cannot hold `sep`. */
  lemma SplitJoin(head: string, a: string, sep: string, b: string, tail: string)
    requires sep != [] && sep[0] !in a
    ensures Split(head + a + sep + b + tail, head, sep, tail) == Some((a, b))
  {
    var line := head + a + sep + b + tail;
    var body := a + sep + b;
    assert line[..|head|] == head && line[|line| - |tail|..] == tail;
    assert line[|head|..|line| - |tail|] == body;
    assert OccursAt(body, sep, |a|) by {
      assert body[|a|..|a| + |sep|] == sep;
    }
    forall k | 0 <= k < |a|
      ensures !OccursAt(body, sep, k)
    {
      assert body[k] == a[k];
    }
    assert Find(body, sep, 0).Some?;
    assert body[..|a|] == a && body[|a| + |sep|..] == b;
  }

  /** Reads an import line back: the class name and the package. */
  function ParseImport(line: string): (r: Option<(string, string)>)
    ensures r.Some? ==> ImportStatement(r.value.0, r.value.1) == line
  {
    Split(line, "import ", " from '", "';")
  }

  /** Reads a registration line back: the class name and the key. */
  function ParseRegistration(line: string): (r: Option<(string, string)>)
    ensures r.Some? ==> RegistrationStatement(r.value.0, r.value.1) == line
  {
    Split(line, "new ", "().configure({ key: '", "' }),")
  }

  /** An import line for a class name (a run of `\w` characters) reads back to its parts. */
  lemma ImportRoundTrip(name: string, package: string)
    requires forall c :: c in name ==> IsWordChar(c)
    ensures ParseImport(ImportStatement(name, package)) == Some((name, package))
  {
    assert !IsWordChar(" from '"[0]);
    SplitJoin("import ", name, " from '", package, "';");
  }

  /** A registration line for a class name reads back to its parts. */
  lemma RegistrationRoundTrip(name: string, key: string)
    requires forall c :: c in name ==> IsWordChar(c)
    ensures ParseRegistration(RegistrationStatement(name, key)) == Some((name, key))
  {
    assert !IsWordChar("().configure({ key: '"[0]);
    SplitJoin("new ", name, "().configure({ key: '", key, "' }),");
  }

  /** The `plugins_data` entry of one plugin directory, when a class name is found. */
  function PluginOf(d: DirEntry): (r: Option<Plugin>)
    requires HasIndex(d)
    ensures r.Some? <==> ExtractPluginName(d).Some?
  {
    match ExtractPluginName(d)
    case None => None
    case Some(name) =>
      var dir := LastSegment(d.path);
      Some(Plugin(name, PackageScope + "/" + dir, RemoveAll(dir, ChartPrefix)))
  }

  /** The `plugins_data` of a list of plugin directories, in order. */
  function PluginsOf(dirs: seq<PluginDir>): (r: seq<Plugin>)
    ensures |r| <= |dirs|
  {
    if dirs == [] then []
    else
      var front := PluginsOf(dirs[..|dirs| - 1]);
      front + Contribution(dirs[|dirs| - 1])
  }

  /** What the `if plugin_name:` append adds for one directory: its entry when a class name is found, nothing otherwise. */
  function Contribution(d: DirEntry): seq<Plugin>
    requires HasIndex(d)
  {
    Listed(PluginOf(d))
  }

  /** An optional entry as a list of at most one. */
  function Listed(entry: Option<Plugin>): seq<Plugin> {
    if entry.Some? then [entry.value] else []
  }

  /** One more directory adds its own entry, if any, at the end. */
  lemma PluginsOfSnoc(dirs: seq<PluginDir>, d: PluginDir)
    ensures PluginsOf(dirs + [d]) == PluginsOf(dirs) + Contribution(d)
  {
    assert (dirs + [d])[..|dirs|] == dirs;
  }

  /** The entries of the first i + 1 directories: those of the first i, then directory i's entry. */
  lemma PluginsOfPrefix(dirs: seq<PluginDir>, i: nat)
    requires i < |dirs|
    ensures PluginsOf(dirs[..i + 1]) == PluginsOf(dirs[..i]) + Contribution(dirs[i])
  {
    assert dirs[..i + 1] == dirs[..i] + [dirs[i]];
    PluginsOfSnoc(dirs[..i], dirs[i]);
  }

  /** Collecting entries distributes over concatenation: directory order is kept. */
  lemma {:induction false} PluginsOfConcat(a: seq<PluginDir>, b: seq<PluginDir>)
    ensures PluginsOf(a + b) == PluginsOf(a) + PluginsOf(b)
    decreases |b|
  {
    if b == [] {
      assert a + b == a;
    } else {
      var front, last := b[..|b| - 1], b[|b| - 1];
      assert b == front + [last] && a + b == (a + front) + [last];
      PluginsOfConcat(a, front);
      PluginsOfSnoc(a + front, last);
      PluginsOfSnoc(front, last);
    }
  }

  /**
   * The directory at position `i` contributes its entry exactly when a class
   * name is found in it, after the entries of the directories before it and
   * before those of the directories after it.
   */
  lemma {:induction false} PluginsOfAt(dirs: seq<PluginDir>, i: nat)
    requires i < |dirs|
    ensures PluginsOf(dirs) == PluginsOf(dirs[..i]) + Contribution(dirs[i]) + PluginsOf(dirs[i + 1..])
  {
    assert dirs == (dirs[..i] + [dirs[i]]) + dirs[i + 1..];
    PluginsOfConcat(dirs[..i] + [dirs[i]], dirs[i + 1..]);
    PluginsOfConcat(dirs[..i], [dirs[i]]);
    assert [dirs[i]][..0] == [];
  }

  /** Every directory with a class name contributes its entry. */
  lemma {:induction false} PluginsOfComplete(dirs: seq<PluginDir>, i: nat)
    requires i < |dirs| && ExtractPluginName(dirs[i]).Some?
    ensures PluginOf(dirs[i]).Some? && PluginOf(dirs[i]).value in PluginsOf(dirs)
    decreases |dirs|
  {
    var front := dirs[..|dirs| - 1];
    if i < |dirs| - 1 {
      assert front[i] == dirs[i];
      PluginsOfComplete(front, i);
    }
  }

  /** The main block's loop: one `plugins_data` entry per directory with a class name. */
  method CollectPlugins(dirs: seq<PluginDir>) returns (plugins: seq<Plugin>)
    ensures plugins == PluginsOf(dirs)
  {
    plugins := [];
    var i := 0;
    while i < |dirs|
      invariant 0 <= i <= |dirs| && plugins == PluginsOf(dirs[..i])
    {
      PluginsOfPrefix(dirs, i);
      plugins := plugins + Contribution(dirs[i]);
      i := i + 1;
    }
    assert dirs[..i] == dirs;
  }

  /**
   * Every collected plugin was found in a directory of the list: its name is
   * that directory's class name, a run of `\w` characters; its package is
   * `@superset-ui/` and the directory's last path segment; its key is that
   * segment without `superset-plugin-chart-`.
   */
  lemma {:induction false} PluginsOfEntries(dirs: seq<PluginDir>, p: Plugin)
    requires p in PluginsOf(dirs)
    ensures exists d :: d in dirs && ExtractPluginName(d) == Some(p.name)
                        && p.package == PackageScope + "/" + LastSegment(d.path)
                        && p.key == RemoveAll(LastSegment(d.path), ChartPrefix)
    ensures p.name != [] && forall c :: c in p.name ==> IsWordChar(c)
  {
    var front := dirs[..|dirs| - 1];
    var d := dirs[|dirs| - 1];
    assert forall x :: x in front ==> x in dirs;
    if p in PluginsOf(front) {
      PluginsOfEntries(front, p);
    } else {
      assert PluginOf(d) == Some(p);
    }
  }

  /** A plugin's package names its directory: the dependency path points back at it. */
  lemma PackageNamesDirectory(path: string)
    ensures LastSegment(PackageScope + "/" + LastSegment(path)) == LastSegment(path)
  {
    LastSegmentSuffix(path);
    LastSegmentAfterSlash(PackageScope, LastSegment(path));
  }

  /** The key of `superset-plugin-chart-<name>` is `<name>` when name holds no further prefix. */
  lemma ChartKey(name: string)
    requires forall i :: !OccursAt(name, ChartPrefix, i)
    ensures RemoveAll(ChartPrefix + name, ChartPrefix) == name
  {
    var s := ChartPrefix + name;
    assert s[..|ChartPrefix|] == ChartPrefix && s[|ChartPrefix|..] == name;
    RemoveAllAbsent(name, ChartPrefix);
  }

  /** The import line of a plugin. */
  function ImportLine(p: Plugin): string {
    ImportStatement(p.name, p.package)
  }

  /** The registration line of a plugin. */
  function RegistrationLine(p: Plugin): string {
    RegistrationStatement(p.name, p.key)
  }

  /** The comment line put before a plugin's registration. */
  function RegistrationComment(name: string): string {
    "\n// Регистрация плагина " + name + "\n"
  }

  /** The comment and registration line appended for a plugin. */
  function RegistrationBlock(p: Plugin): string {
    RegistrationComment(p.name) + RegistrationLine(p)
  }

  /** A plugin whose import or registration is not in `text`. */
  predicate Missing(text: string, p: Plugin) {
    !Contains(text, ImportLine(p)) || !Contains(text, RegistrationLine(p))
  }

  /**
   * The import lines added in front of the original text: one per plugin
   * whose import the original lacks, the last plugin's first.
   */
  function AddedImports(original: string, plugins: seq<Plugin>): string
    decreases |plugins|
  {
    if plugins == [] then ""
    else
      var p := plugins[|plugins| - 1];
      var rest := AddedImports(original, plugins[..|plugins| - 1]);
      if Contains(original, ImportLine(p)) then rest else ImportLine(p) + "\n" + rest
  }

  /** The registration blocks appended, in plugin order, for registrations the original lacks. */
  function AddedRegistrations(original: string, plugins: seq<Plugin>): string
    decreases |plugins|
  {
    if plugins == [] then ""
    else
      var p := plugins[|plugins| - 1];
      var rest := AddedRegistrations(original, plugins[..|plugins| - 1]);
      if Contains(original, RegistrationLine(p)) then rest else rest + RegistrationBlock(p)
  }

  /** The text of `MainPreset.js` after the update of `original`. */
  function UpdatedPreset(original: string, plugins: seq<Plugin>): string {
    AddedImports(original, plugins) + original + AddedRegistrations(original, plugins)
  }

  /**
   * `update_main_preset`: each plugin's import is put in front and its
   * registration appended unless the original file already contains them.
   * `updated` says whether the file is rewritten; when it is not, the text
   * is the original.
   */
  method UpdateMainPreset(original: string, plugins: seq<Plugin>) returns (content: string, updated: bool)
    ensures content == UpdatedPreset(original, plugins)
    ensures updated <==> exists j :: 0 <= j < |plugins| && Missing(original, plugins[j])
    ensures !updated ==> content == original
  {
    content, updated := original, false;
    PresetStart(original, plugins);
    var i := 0;
    while i < |plugins|
      invariant 0 <= i <= |plugins|
      invariant content == UpdatedPreset(original, plugins[..i])
      invariant updated <==> exists j :: 0 <= j < i && Missing(original, plugins[j])
      invariant !updated ==> content == original
    {
      var p := plugins[i];
      PresetTextStep(original, plugins, i);
      var importLine, registrationLine := ImportLine(p), RegistrationLine(p);
      if !Contains(original, importLine) {
        content := importLine + "\n" + content;
        updated := true;
      }
      if !Contains(original, registrationLine) {
        content := content + RegistrationBlock(p);
        updated := true;
      }
      i := i + 1;
    }
    assert plugins[..i] == plugins;
  }

  /** Before any plugin, the text is the original. */
  lemma PresetStart(original: string, plugins: seq<Plugin>)
    ensures UpdatedPreset(original, plugins[..0]) == original
  {
    assert plugins[..0] == [];
    assert "" + original + "" == original;
  }

  /**
   * One more plugin, on the whole text: its missing import goes in front of
   * the text so far, its missing registration block at the end.
   */
  lemma PresetTextStep(original: string, plugins: seq<Plugin>, i: nat)
    requires i < |plugins|
    ensures var p, text := plugins[i], UpdatedPreset(original, plugins[..i]);
            var hasImport, hasRegistration := Contains(original, ImportLine(p)), Contains(original, RegistrationLine(p));
            && (hasImport && hasRegistration ==> UpdatedPreset(original, plugins[..i + 1]) == text)
            && (!hasImport && hasRegistration ==> UpdatedPreset(original, plugins[..i + 1]) == ImportLine(p) + "\n" + text)
            && (hasImport && !hasRegistration ==> UpdatedPreset(original, plugins[..i + 1]) == text + RegistrationBlock(p))
            && (!hasImport && !hasRegistration ==> UpdatedPreset(original, plugins[..i + 1]) == ImportLine(p) + "\n" + text + RegistrationBlock(p))
  {
    PresetStep(original, plugins, i);
    var p := plugins[i];
    Regroup(ImportLine(p) + "\n", AddedImports(original, plugins[..i]), original,
            AddedRegistrations(original, plugins[..i]), RegistrationBlock(p));
  }

  /** One more plugin: its missing import goes in front, its missing registration at the end. */
  lemma PresetStep(original: string, plugins: seq<Plugin>, i: nat)
    requires i < |plugins|
    ensures var p, front := plugins[i], AddedImports(original, plugins[..i]);
            AddedImports(original, plugins[..i + 1])
            == if Contains(original, ImportLine(p)) then front else ImportLine(p) + "\n" + front
    ensures var p, back := plugins[i], AddedRegistrations(original, plugins[..i]);
            AddedRegistrations(original, plugins[..i + 1])
            == if Contains(original, RegistrationLine(p)) then back else back + RegistrationBlock(p)
  {
    assert plugins[..i + 1][..i] == plugins[..i];
  }

  /** Text added around a three-part text regroups with the outer parts. */
  lemma Regroup(a: string, f: string, o: string, b: string, c: string)
    ensures a + (f + o + b) == (a + f) + o + b
    ensures (f + o + b) + c == f + o + (b + c)
    ensures (a + (f + o + b)) + c == (a + f) + o + (b + c)
  {
  }

  /** Each import the original lacks is among the added imports. */
  lemma {:induction false} ImportAdded(original: string, plugins: seq<Plugin>, j: nat)
    requires j < |plugins| && !Contains(original, ImportLine(plugins[j]))
    ensures Contains(AddedImports(original, plugins), ImportLine(plugins[j]))
    decreases |plugins|
  {
    if j == |plugins| - 1 {
      ImportAddedLast(original, plugins);
    } else {
      var front := plugins[..|plugins| - 1];
      assert front[j] == plugins[j];
      ImportAdded(original, front, j);
      ImportsKept(original, plugins, ImportLine(plugins[j]));
    }
  }

  /** The last plugin's missing import heads the added imports. */
  lemma ImportAddedLast(original: string, plugins: seq<Plugin>)
    requires plugins != [] && !Contains(original, ImportLine(plugins[|plugins| - 1]))
    ensures Contains(AddedImports(original, plugins), ImportLine(plugins[|plugins| - 1]))
  {
    var line := ImportLine(plugins[|plugins| - 1]);
    var rest := AddedImports(original, plugins[..|plugins| - 1]);
    OccursInside(line, "", "\n" + rest, line, 0);
    assert "" + line + ("\n" + rest) == AddedImports(original, plugins);
  }

  /** A line among the imports added for a prefix stays among them. */
  lemma ImportsKept(original: string, plugins: seq<Plugin>, line: string)
    requires plugins != [] && Contains(AddedImports(original, plugins[..|plugins| - 1]), line)
    ensures Contains(AddedImports(original, plugins), line)
  {
    var last := plugins[|plugins| - 1];
    var rest := AddedImports(original, plugins[..|plugins| - 1]);
    if !Contains(original, ImportLine(last)) {
      ContainsAfter(ImportLine(last) + "\n", rest, line);
    }
  }

  /** Each registration the original lacks is among the added blocks. */
  lemma {:induction false} RegistrationAdded(original: string, plugins: seq<Plugin>, j: nat)
    requires j < |plugins| && !Contains(original, RegistrationLine(plugins[j]))
    ensures Contains(AddedRegistrations(original, plugins), RegistrationLine(plugins[j]))
    decreases |plugins|
  {
    if j == |plugins| - 1 {
      RegistrationAddedLast(original, plugins);
    } else {
      var front := plugins[..|plugins| - 1];
      assert front[j] == plugins[j];
      RegistrationAdded(original, front, j);
      RegistrationsKept(original, plugins, RegistrationLine(plugins[j]));
    }
  }

  /** The last plugin's missing registration ends the added blocks. */
  lemma RegistrationAddedLast(original: string, plugins: seq<Plugin>)
    requires plugins != [] && !Contains(original, RegistrationLine(plugins[|plugins| - 1]))
    ensures Contains(AddedRegistrations(original, plugins), RegistrationLine(plugins[|plugins| - 1]))
  {
    var last := plugins[|plugins| - 1];
    var line := RegistrationLine(last);
    var rest := AddedRegistrations(original, plugins[..|plugins| - 1]);
    OccursInside(line, rest + RegistrationComment(last.name), "", line, 0);
    assert rest + RegistrationComment(last.name) + line + "" == AddedRegistrations(original, plugins);
  }

  /** A line among the blocks added for a prefix stays among them. */
  lemma RegistrationsKept(original: string, plugins: seq<Plugin>, line: string)
    requires plugins != [] && Contains(AddedRegistrations(original, plugins[..|plugins| - 1]), line)
    ensures Contains(AddedRegistrations(original, plugins), line)
  {
    var last := plugins[|plugins| - 1];
    var rest := AddedRegistrations(original, plugins[..|plugins| - 1]);
    if !Contains(original, RegistrationLine(last)) {
      ContainsBefore(rest, RegistrationBlock(last), line);
    }
  }

  /** Text after an occurrence keeps it. */
  lemma ContainsBefore(a: string, c: string, pat: string)
    requires Contains(a, pat)
    ensures Contains(a + c, pat)
  {
    var i :| 0 <= i <= |a| - |pat| && OccursAt(a, pat, i);
    assert (a + c)[i..i + |pat|] == a[i..i + |pat|];
    assert OccursAt(a + c, pat, i);
  }

  /** Text before an occurrence keeps it. */
  lemma ContainsAfter(b: string, a: string, pat: string)
    requires Contains(a, pat)
    ensures Contains(b + a, pat)
  {
    var i :| 0 <= i <= |a| - |pat| && OccursAt(a, pat, i);
    assert (b + a)[|b| + i..|b| + i + |pat|] == a[i..i + |pat|];
    assert OccursAt(b + a, pat, |b| + i);
  }

  /** The text around an occurrence keeps it: `pat` in `a` is in `b + a + c`. */
  lemma ContainsInside(a: string, b: string, c: string, pat: string)
    requires Contains(a, pat)
    ensures Contains(b + a + c, pat)
  {
    var i :| 0 <= i <= |a| - |pat| && OccursAt(a, pat, i);
    OccursInside(a, b, c, pat, i);
  }

  /** Nothing is added for plugins none of which is missing. */
  lemma {:induction false} NothingMissingNothingAdded(original: string, plugins: seq<Plugin>)
    requires forall j :: 0 <= j < |plugins| ==> !Missing(original, plugins[j])
    ensures AddedImports(original, plugins) == "" && AddedRegistrations(original, plugins) == ""
    decreases |plugins|
  {
    if plugins != [] {
      var front := plugins[..|plugins| - 1];
      assert forall j :: 0 <= j < |front| ==> front[j] == plugins[j];
      assert !Missing(original, plugins[|plugins| - 1]);
      NothingMissingNothingAdded(original, front);
    }
  }

  /** After the update, each plugin's import line is in the text. */
  lemma ImportPresent(original: string, plugins: seq<Plugin>, j: nat)
    requires j < |plugins|
    ensures Contains(UpdatedPreset(original, plugins), ImportLine(plugins[j]))
  {
    var line := ImportLine(plugins[j]);
    var pre, post := AddedImports(original, plugins), AddedRegistrations(original, plugins);
    if Contains(original, line) {
      ContainsInside(original, pre, post, line);
    } else {
      ImportAdded(original, plugins, j);
      ContainsBefore(pre, original + post, line);
      assert pre + (original + post) == UpdatedPreset(original, plugins);
    }
  }

  /** After the update, each plugin's registration line is in the text. */
  lemma RegistrationPresent(original: string, plugins: seq<Plugin>, j: nat)
    requires j < |plugins|
    ensures Contains(UpdatedPreset(original, plugins), RegistrationLine(plugins[j]))
  {
    var line := RegistrationLine(plugins[j]);
    var pre, post := AddedImports(original, plugins), AddedRegistrations(original, plugins);
    if Contains(original, line) {
      ContainsInside(original, pre, post, line);
    } else {
      RegistrationAdded(original, plugins, j);
      ContainsAfter(pre + original, post, line);
    }
  }

  /**
   * Running the update on its own output changes nothing: every plugin's
   * import and registration are then present, so no line is added and the
   * file is not rewritten.
   */
  lemma PresetUpdateIdempotent(original: string, plugins: seq<Plugin>)
    ensures forall j :: 0 <= j < |plugins| ==> !Missing(UpdatedPreset(original, plugins), plugins[j])
    ensures UpdatedPreset(UpdatedPreset(original, plugins), plugins) == UpdatedPreset(original, plugins)
  {
    var out := UpdatedPreset(original, plugins);
    forall j | 0 <= j < |plugins|
      ensures !Missing(out, plugins[j])
    {
      ImportPresent(original, plugins, j);
      RegistrationPresent(original, plugins, j);
    }
    NothingMissingNothingAdded(out, plugins);
    assert "" + out + "" == out;
  }

  /** The dependency path of a package: `file:./plugins/` and its last path segment. */
  function DependencyPath(package: string): string {
    DependencyRoot + LastSegment(package)
  }

  /**
   * The dependencies after the update: each plugin's package, in plugin
   * order, is added with its dependency path unless already present.
   */
  function MergeDependencies(deps: map<string, Value>, plugins: seq<Plugin>): map<string, Value>
    decreases |plugins|
  {
    if plugins == [] then deps
    else
      var p := plugins[|plugins| - 1];
      var m := MergeDependencies(deps, plugins[..|plugins| - 1]);
      if p.package in m then m else m[p.package := Str(DependencyPath(p.package))]
  }

  /** The merged dependencies name the old packages and the plugins' packages, and nothing else. */
  lemma {:induction false} MergeKeys(deps: map<string, Value>, plugins: seq<Plugin>)
    ensures forall k :: k in MergeDependencies(deps, plugins) <==>
              k in deps || exists j :: 0 <= j < |plugins| && plugins[j].package == k
    decreases |plugins|
  {
    if plugins != [] {
      var front := plugins[..|plugins| - 1];
      MergeKeys(deps, front);
      assert forall j :: 0 <= j < |front| ==> front[j] == plugins[j];
    }
  }

  /** Entries already present are kept as they are. */
  lemma {:induction false} MergeKeeps(deps: map<string, Value>, plugins: seq<Plugin>)
    ensures forall k :: k in deps ==> k in MergeDependencies(deps, plugins)
                                      && MergeDependencies(deps, plugins)[k] == deps[k]
    decreases |plugins|
  {
    if plugins != [] {
      MergeKeeps(deps, plugins[..|plugins| - 1]);
    }
  }

  /** A plugin package not present before maps to its dependency path. */
  lemma {:induction false} MergeAdds(deps: map<string, Value>, plugins: seq<Plugin>, j: nat)
    requires j < |plugins| && plugins[j].package !in deps
    ensures var r := MergeDependencies(deps, plugins);
            plugins[j].package in r && r[plugins[j].package] == Str(DependencyPath(plugins[j].package))
    decreases |plugins|
  {
    var front := plugins[..|plugins| - 1];
    var package := plugins[j].package;
    if j < |front| {
      MergeAdds(deps, front, j);
      assert front[j] == plugins[j];
    } else if package in MergeDependencies(deps, front) {
      MergeKeys(deps, front);
      var k :| 0 <= k < |front| && front[k].package == package;
      MergeAdds(deps, front, k);
    }
  }

  /** The `dependencies` of `package.json`, an empty object when absent. */
  function Dependencies(data: map<string, Value>): map<string, Value>
    requires "dependencies" in data ==> data["dependencies"].Object?
  {
    if "dependencies" in data then data["dependencies"].fields else map[]
  }

  /**
   * `update_package_json`: adds each package missing from `dependencies`
   * (created empty when absent). `updated` says whether the file is
   * rewritten: exactly when some package was missing.
   */
  method UpdatePackageJson(data: map<string, Value>, plugins: seq<Plugin>)
    returns (data': map<string, Value>, updated: bool)
    requires "dependencies" in data ==> data["dependencies"].Object?
    ensures data' == data["dependencies" := Object(MergeDependencies(Dependencies(data), plugins))]
    ensures updated <==> exists j :: 0 <= j < |plugins| && plugins[j].package !in Dependencies(data)
  {
    var deps := Dependencies(data);
    updated := false;
    var i := 0;
    while i < |plugins|
      invariant 0 <= i <= |plugins|
      invariant deps == MergeDependencies(Dependencies(data), plugins[..i])
      invariant updated <==> exists j :: 0 <= j < i && plugins[j].package !in Dependencies(data)
    {
      var p := plugins[i];
      MergeStep(Dependencies(data), plugins, i);
      MergeKeys(Dependencies(data), plugins[..i]);
      if p.package !in deps {
        deps := deps[p.package := Str(DependencyPath(p.package))];
        updated := true;
      }
      i := i + 1;
    }
    assert plugins[..i] == plugins;
    data' := data["dependencies" := Object(deps)];
  }

  /** One more plugin: its package is added unless the merge so far has it. */
  lemma MergeStep(deps: map<string, Value>, plugins: seq<Plugin>, i: nat)
    requires i < |plugins|
    ensures var m := MergeDependencies(deps, plugins[..i]);
            var p := plugins[i];
            MergeDependencies(deps, plugins[..i + 1])
            == if p.package in m then m else m[p.package := Str(DependencyPath(p.package))]
  {
    assert plugins[..i + 1][..i] == plugins[..i];
  }

  /** Merging into dependencies that already name every package changes nothing. */
  lemma {:induction false} MergeKnown(deps: map<string, Value>, plugins: seq<Plugin>)
    requires forall j :: 0 <= j < |plugins| ==> plugins[j].package in deps
    ensures MergeDependencies(deps, plugins) == deps
    decreases |plugins|
  {
    if plugins != [] {
      var front := plugins[..|plugins| - 1];
      assert forall j :: 0 <= j < |front| ==> front[j] == plugins[j];
      MergeKnown(deps, front);
      assert plugins[|plugins| - 1].package in deps;
    }
  }

  /** A second update adds nothing and does not rewrite the file. */
  lemma PackageUpdateIdempotent(deps: map<string, Value>, plugins: seq<Plugin>)
    ensures var merged := MergeDependencies(deps, plugins);
            && (forall j :: 0 <= j < |plugins| ==> plugins[j].package in merged)
            && MergeDependencies(merged, plugins) == merged
  {
    MergeKeys(deps, plugins);
    MergeKnown(MergeDependencies(deps, plugins), plugins);
  }

  /**
   * The whole script: walk `plugins/`, collect the plugins, then update the
   * text of `MainPreset.js` and the object of `package.json`.
   */
  method RegisterPlugins(walk: seq<DirEntry>, preset: string, packageData: map<string, Value>)
    returns (plugins: seq<Plugin>, preset': string, presetWritten: bool,
             packageData': map<string, Value>, packageWritten: bool)
    requires "dependencies" in packageData ==> packageData["dependencies"].Object?
    ensures plugins == PluginsOf(PluginDirs(walk))
    ensures preset' == UpdatedPreset(preset, plugins)
    ensures presetWritten <==> exists j :: 0 <= j < |plugins| && Missing(preset, plugins[j])
    ensures packageData' == packageData["dependencies" := Object(MergeDependencies(Dependencies(packageData), plugins))]
    ensures packageWritten <==> exists j :: 0 <= j < |plugins| && plugins[j].package !in Dependencies(packageData)
  {
    var dirs := FindPlugins(walk);
    plugins := CollectPlugins(dirs);
    preset', presetWritten := UpdateMainPreset(preset, plugins);
    packageData', packageWritten := UpdatePackageJson(packageData, plugins);
  }
}
