/** The value-level parts of djblets/extensions/extension.py: where a JavaScript extension
    applies, bundle ids, and the ExtensionInfo record built from a package's PKG-INFO lines and
    the extension class's own metadata. (The Extension object's hook set and its
    `shutdown`/`shutdown_hooks` are in module ExtensionHooks.) */
module ExtensionMetadata {
  import opened Wrappers
  import opened Strings
  import ExtensionHooks

  /** `JSExtension.applies_to`: without an `apply_to` list (None) the extension applies on every
      page, and with one exactly on the URL names it lists. */
  predicate JSAppliesTo(applyTo: Option<seq<string>>, urlName: string)
  {
    applyTo.None? || urlName in applyTo.value
  }

  /** A listed page is one the JavaScript extension applies to, and with a list present no
      other page is. */
  lemma JSAppliesToListed(applyTo: seq<string>, urlName: string)
    ensures JSAppliesTo(Some(applyTo), urlName) <==> urlName in applyTo
    ensures JSAppliesTo(None, urlName)
  {
  }

  /** The two `applies_to` checks differ only on an empty list: a hook with `apply_to=[]` applies
      everywhere, a JavaScript extension with `apply_to = []` nowhere. */
  lemma AppliesToEmptyList(urlName: string)
    ensures ExtensionHooks.AppliesTo([], urlName)
    ensures !JSAppliesTo(Some([]), urlName)
  {
  }

  /** On a non-empty list the two checks agree. */
  lemma AppliesToAgree(applyTo: seq<string>, urlName: string)
    requires |applyTo| > 0
    ensures JSAppliesTo(Some(applyTo), urlName) == ExtensionHooks.AppliesTo(applyTo, urlName)
  {
  }

  /** `Extension.get_bundle_id(name)`: the extension id, a dash, and the bundle name. */
  function BundleId(id: string, name: string): (r: string)
    ensures |r| == |id| + 1 + |name|
    ensures r[..|id|] == id && r[|id|] == '-' && r[|id| + 1..] == name
  {
    id + "-" + name
  }

  /** Within one extension, distinct bundle names give distinct bundle ids. */
  lemma BundleIdInjective(id: string, name1: string, name2: string)
    requires BundleId(id, name1) == BundleId(id, name2)
    ensures name1 == name2
  {
    assert name1 == BundleId(id, name1)[|id| + 1..];
  }

  /** The value PKG-INFO uses for a field the package does not set. */
  const Unknown: string := "UNKNOWN"

  /** What `ExtensionInfo.__init__` raises instead of building the record. */
  datatype MetadataError =
    | MalformedLine(line: string)   // `key, value = line.split(": ", 1)` on a line without `": "` (ValueError)
    | UndecodableLine(line: string) // the same split decoding a non-ASCII line as ASCII (UnicodeDecodeError)
    | NoPackageName                 // `os.path.join(settings.EXTENSIONS_STATIC_ROOT, None)` (AttributeError)

  /** A PKG-INFO line (a byte string) split at its first `": "` into key and value. The
      separator is a unicode literal, so the line is decoded as ASCII first. */
  function Entry(line: string): (r: Result<(string, string), MetadataError>)
    ensures r.Ok? ==> IsAscii(line) && line == r.value.0 + ": " + r.value.1
    ensures r.Err? ==> r.error == if IsAscii(line) then MalformedLine(line) else UndecodableLine(line)
  {
    if !IsAscii(line) then Err(UndecodableLine(line))
    else
      match Partition(line, ": ")
      case None => Err(MalformedLine(line))
      case Some(entry) => Ok(entry)
  }

  /** A line splits exactly when it is ASCII and holds `": "`, and it splits at the first
      occurrence: the key holds no `": "`. */
  lemma EntrySplits(line: string)
    ensures Entry(line).Ok? <==> IsAscii(line) && exists i :: 0 <= i < |line| && OccursAt(line, ": ", i)
    ensures Entry(line).Ok? ==> forall i :: 0 <= i < |Entry(line).value.0| ==> !OccursAt(line, ": ", i)
  {
  }

  /** The lines split into (key, value) entries, in order; the first line that fails to split
      is the error. */
  function Entries(lines: seq<string>): (r: Result<seq<(string, string)>, MetadataError>)
    ensures r.Ok? ==> |r.value| == |lines| && forall i :: 0 <= i < |lines| ==> Entry(lines[i]) == Ok(r.value[i])
  {
    if |lines| == 0 then Ok([])
    else
      var front, line := lines[..|lines| - 1], lines[|lines| - 1];
      match Entries(front)
      case Err(e) => Err(e)
      case Ok(es) =>
        match Entry(line)
        case Err(e) => Err(e)
        case Ok(entry) =>
          assert forall i :: 0 <= i < |front| ==> lines[i] == front[i] && (es + [entry])[i] == es[i];
          Ok(es + [entry])
  }

  /** The PKG-INFO lines fail to split exactly when one of them is not ASCII or has no `": "`,
      and the error is that of the first such line. */
  lemma {:induction false} EntriesMalformed(lines: seq<string>)
    ensures Entries(lines).Err? <==> exists i :: 0 <= i < |lines| && Entry(lines[i]).Err?
    ensures Entries(lines).Err? ==>
      exists i :: 0 <= i < |lines| && Entry(lines[i]).Err? && Entries(lines).error == Entry(lines[i]).error
        && forall j :: 0 <= j < i ==> Entry(lines[j]).Ok?
  {
    if |lines| > 0 {
      var n := |lines| - 1;
      var front := lines[..n];
      EntriesMalformed(front);
      if Entries(front).Err? {
        var i :| 0 <= i < n && Entry(front[i]).Err? && Entries(front).error == Entry(front[i]).error
          && forall j :: 0 <= j < i ==> Entry(front[j]).Ok?;
        assert forall j :: 0 <= j < i ==> lines[j] == front[j];
        assert lines[i] == front[i];
      } else {
        forall j | 0 <= j < n
          ensures Entry(lines[j]).Ok?
        {
          assert lines[j] == front[j];
        }
      }
    }
  }

  /** The entry stores a value: that value is not UNKNOWN. */
  predicate Stores(entry: (string, string))
  {
    entry.1 != Unknown
  }

  /** The metadata dictionary built from the entries one after the other: an UNKNOWN value is
      skipped, and any other value is stored under its key, replacing an earlier one. */
  function Collect(entries: seq<(string, string)>): (metadata: map<string, string>)
    ensures forall key :: key in metadata ==> metadata[key] != Unknown
  {
    if |entries| == 0 then map[]
    else
      var m := Collect(entries[..|entries| - 1]);
      var (key, value) := entries[|entries| - 1];
      if value != Unknown then m[key := value] else m
  }

  /** A key is in the dictionary exactly when some entry stores a value under it. */
  lemma {:induction false} CollectKeys(entries: seq<(string, string)>)
    ensures forall key :: key in Collect(entries) <==>
      exists i :: 0 <= i < |entries| && entries[i].0 == key && Stores(entries[i])
  {
    if |entries| > 0 {
      var n := |entries| - 1;
      var front := entries[..n];
      CollectKeys(front);
      forall key
        ensures key in Collect(entries) <==> exists i :: 0 <= i < |entries| && entries[i].0 == key && Stores(entries[i])
      {
        if i :| 0 <= i < |entries| && entries[i].0 == key && Stores(entries[i]) {
          if i < n {
            assert front[i].0 == key && Stores(front[i]);
          }
        }
        if key in Collect(front) {
          var i :| 0 <= i < n && front[i].0 == key && Stores(front[i]);
          assert entries[i] == front[i];
        }
      }
    }
  }

  /** A key's value is the one stored by the last entry that stores a value under it: an
      UNKNOWN in a later entry does not remove it. */
  lemma {:induction false} CollectLastWins(entries: seq<(string, string)>)
    ensures forall key :: key in Collect(entries) ==>
      exists i :: 0 <= i < |entries| && entries[i] == (key, Collect(entries)[key]) && Stores(entries[i])
        && forall j :: i < j < |entries| ==> !(entries[j].0 == key && Stores(entries[j]))
  {
    if |entries| > 0 {
      var n := |entries| - 1;
      var front := entries[..n];
      CollectLastWins(front);
      var m := Collect(front);
      var m' := Collect(entries);
      var (k, v) := entries[n];
      forall key | key in m'
        ensures exists i :: (0 <= i < |entries| && entries[i] == (key, m'[key]) && Stores(entries[i])
                             && forall j :: i < j < |entries| ==> !(entries[j].0 == key && Stores(entries[j])))
      {
        if key == k && v != Unknown {
          assert entries[n] == (key, m'[key]);
        } else {
          var i :| 0 <= i < n && front[i] == (key, m[key]) && Stores(front[i])
            && forall j :: i < j < n ==> !(front[j].0 == key && Stores(front[j]));
          assert entries[i] == front[i];
          assert forall j :: i < j < n ==> entries[j] == front[j];
        }
      }
    }
  }

  /** The dictionary the PKG-INFO loop builds: every line split at its first `": "`, then the
      entries collected in order. It fails with the error of the first line that does not
      split; otherwise its keys are those of the lines that store a value. */
  function PkgInfo(lines: seq<string>): (r: Result<map<string, string>, MetadataError>)
    ensures r.Err? <==> exists i :: 0 <= i < |lines| && Entry(lines[i]).Err?
    ensures r.Ok? ==> forall key :: key in r.value <==>
      exists i :: 0 <= i < |lines| && Entry(lines[i]).Ok? && Entry(lines[i]).value.0 == key && Stores(Entry(lines[i]).value)
  {
    EntriesMalformed(lines);
    match Entries(lines)
    case Err(e) => Err(e)
    case Ok(entries) =>
      CollectKeys(entries);
      Ok(Collect(entries))
  }

  /** What the extension class itself declares: its id, the module it is defined in, its
      `metadata` (None when it sets none) and two flags. */
  datatype ExtensionClass = ExtensionClass(
    id: string,
    moduleName: string,
    metadata: Option<map<string, string>>,
    isConfigurable: bool,
    hasAdminSite: bool)

  /** The attributes `ExtensionInfo.__init__` sets, apart from the two static file paths. The
      package name is always present: `__init__` raises when PKG-INFO has no `Name`. */
  datatype ExtensionInfo = ExtensionInfo(
    metadata: map<string, string>,
    packageName: string,
    name: Option<string>,
    version: Option<string>,
    summary: Option<string>,
    description: Option<string>,
    author: Option<string>,
    authorEmail: Option<string>,
    license: Option<string>,
    url: Option<string>,
    authorUrl: Option<string>,
    appName: string,
    enabled: bool,
    installed: bool,
    isConfigurable: bool,
    hasAdminSite: bool)

  /** The class metadata merged over the package metadata (`metadata.update(...)`). */
  function Merged(pkg: map<string, string>, cls: ExtensionClass): (metadata: map<string, string>)
    ensures forall key :: key in metadata <==> key in pkg || (cls.metadata.Some? && key in cls.metadata.value)
    ensures forall key :: key in metadata ==>
      metadata[key] == if cls.metadata.Some? && key in cls.metadata.value then cls.metadata.value[key] else pkg[key]
  {
    if cls.metadata.Some? then pkg + cls.metadata.value else pkg
  }

  /** The record built from the parsed package metadata `pkg` and the class; `__init__` gets
      this far only when the package metadata names the package. */
  function Info(pkg: map<string, string>, cls: ExtensionClass): (info: ExtensionInfo)
    requires "Name" in pkg
    ensures info.packageName == pkg["Name"]
    ensures forall key :: key in info.metadata <==>
      key in pkg || (cls.metadata.Some? && key in cls.metadata.value)
    ensures forall key :: key in info.metadata ==>
      info.metadata[key] ==
        if cls.metadata.Some? && key in cls.metadata.value then cls.metadata.value[key] else pkg[key]
    ensures info.name == Get(info.metadata, "Name") && info.version == Get(info.metadata, "Version")
    ensures info.url == Get(info.metadata, "Home-page")
    ensures info.authorUrl == if "Author-home-page" in info.metadata then Some(info.metadata["Author-home-page"]) else info.url
    ensures info.appName == if '.' in cls.moduleName then cls.moduleName[..RFind(cls.moduleName, '.')] else ""
    ensures !info.enabled && !info.installed
    ensures info.isConfigurable == cls.isConfigurable && info.hasAdminSite == cls.hasAdminSite
  {
    var metadata := Merged(pkg, cls);
    var url := Get(metadata, "Home-page");
    DropLastComponent(cls.moduleName, '.');
    ExtensionInfo(
      metadata := metadata,
      packageName := pkg["Name"],
      name := Get(metadata, "Name"),
      version := Get(metadata, "Version"),
      summary := Get(metadata, "Summary"),
      description := Get(metadata, "Description"),
      author := Get(metadata, "Author"),
      authorEmail := Get(metadata, "Author-email"),
      license := Get(metadata, "License"),
      url := url,
      authorUrl := if "Author-home-page" in metadata then Some(metadata["Author-home-page"]) else url,
      appName := DropLast(cls.moduleName, '.'),
      enabled := false,
      installed := false,
      isConfigurable := cls.isConfigurable,
      hasAdminSite := cls.hasAdminSite)
  }

  /** `ExtensionInfo(entrypoint, ext_class)`: reads the PKG-INFO lines into a dictionary, one
      line at a time, then builds the record. A line that does not split raises, and so does
      a package without a `Name` (or with an UNKNOWN one) once the static path is joined with
      None; no record is built then. */
  method NewExtensionInfo(lines: seq<string>, cls: ExtensionClass) returns (r: Result<ExtensionInfo, MetadataError>)
    ensures PkgInfo(lines).Err? ==> r == Err(PkgInfo(lines).error)
    ensures PkgInfo(lines).Ok? && "Name" !in PkgInfo(lines).value ==> r == Err(NoPackageName)
    ensures PkgInfo(lines).Ok? && "Name" in PkgInfo(lines).value ==> r == Ok(Info(PkgInfo(lines).value, cls))
  {
    var metadata := map[];
    for i := 0 to |lines|
      invariant Entries(lines[..i]).Ok? && Collect(Entries(lines[..i]).value) == metadata
    {
      assert lines[..i + 1][..i] == lines[..i];
      var entry := Entry(lines[i]);
      if entry.Err? {
        EntriesPrefixError(lines, i + 1);
        return Err(entry.error);
      }
      var (key, value) := entry.value;
      assert Entries(lines[..i + 1]).value[..i] == Entries(lines[..i]).value;
      if value != Unknown {
        metadata := metadata[key := value];
      }
    }
    assert lines[..|lines|] == lines;
    if "Name" !in metadata {
      return Err(NoPackageName);
    }
    r := Ok(Info(metadata, cls));
  }

  /** Once a prefix of the lines fails to split, all of them fail with the same error. */
  lemma {:induction false} EntriesPrefixError(lines: seq<string>, k: nat)
    requires k <= |lines| && Entries(lines[..k]).Err?
    ensures Entries(lines) == Entries(lines[..k])
    decreases |lines| - k
  {
    if k < |lines| {
      assert lines[..k + 1][..k] == lines[..k];
      EntriesPrefixError(lines, k + 1);
    } else {
      assert lines[..k] == lines;
    }
  }

  /** How `%s` prints an attribute that may be None. */
  function ShowOption(v: Option<string>): (text: string)
  {
    match v
    case None => "None"
    case Some(s) => s
  }

  /** How `%s` prints a bool. */
  function ShowBool(b: bool): (text: string)
  {
    if b then "True" else "False"
  }

  /** `ExtensionInfo.__str__`: `"<name> <version> (enabled = <enabled>)"`. */
  function Describe(info: ExtensionInfo): (text: string)
    ensures var name := ShowOption(info.name); |text| > |name| && text[..|name| + 1] == name + " "
  {
    ShowOption(info.name) + " " + ShowOption(info.version) + " (enabled = " + ShowBool(info.enabled) + ")"
  }

  /** The description ends with the enabled flag, so a freshly built record (never enabled)
      describes itself as `(enabled = False)`. */
  lemma DescribeEnabled(info: ExtensionInfo)
    ensures var text := Describe(info);
      var tail := " (enabled = " + ShowBool(info.enabled) + ")";
      |text| >= |tail| && text[|text| - |tail|..] == tail
    ensures !info.enabled ==> var text := Describe(info);
      |text| >= 18 && text[|text| - 18..] == " (enabled = False)"
  {
    var tail := " (enabled = " + ShowBool(info.enabled) + ")";
    var text := ShowOption(info.name) + " " + ShowOption(info.version) + tail;
    assert Describe(info) == text;
    assert text[|text| - |tail|..] == tail;
  }

  /** A name without spaces can be read back from the description as the text before its first
      space; the rest is the version and the flag. */
  lemma {:induction false} DescribeName(info: ExtensionInfo)
    requires info.name.Some? && ' ' !in info.name.value
    ensures Partition(Describe(info), " ") ==
      Some((info.name.value, ShowOption(info.version) + " (enabled = " + ShowBool(info.enabled) + ")"))
  {
    var n := info.name.value;
    var tail := ShowOption(info.version) + " (enabled = " + ShowBool(info.enabled) + ")";
    assert Describe(info) == n + [' '] + tail;
    PartitionAtChar(n, ' ', tail);
  }
}
