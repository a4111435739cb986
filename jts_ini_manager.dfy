/** The jts.ini line rewriter. The settings file of the trading application is
    a list of text lines grouped into blocks headed by "[Section]" lines. At
    start-up the controller makes sure that the [Logon] block holds an
    s3store setting and the [IBGateway] block holds ApiOnly=true, rewriting the
    file when either is missing, and it can look up a `key=value` setting.

    The file on disk is a `FileEntry`; the lines read from it are a
    `seq<string>`; a `BufferedWriter` is an output `seq<string>` that is
    appended to, one line per `writeIniFileLine`. */
module JtsIni {
  import opened Util

  const LogonSectionHeader := "[Logon]"
  const IBGatewaySectionHeader := "[IBGateway]"
  const S3storeFalseSetting := "s3store=false"
  const S3storeTrueSetting := "s3store=true"
  const ApiOnlyTrueSetting := "ApiOnly=true"

  /** The settings accepted in each managed section; the first is the one
      written when none is present. */
  const LogonSettings: seq<string> := [S3storeTrueSetting, S3storeFalseSetting]
  const IBGatewaySettings: seq<string> := [ApiOnlyTrueSetting]

  /** The lines that createMinimalFile writes. */
  const MinimalFile: seq<string> :=
    [LogonSectionHeader, S3storeTrueSetting, IBGatewaySectionHeader, ApiOnlyTrueSetting]

  /** A line that starts with "[": it starts a new section (and so ends the
      current one). */
  predicate IsHeader(l: string) {
    |l| > 0 && l[0] == '['
  }

  lemma ConstantsClassified()
    ensures IsHeader(LogonSectionHeader) && IsHeader(IBGatewaySectionHeader)
    ensures !IsHeader(S3storeTrueSetting) && !IsHeader(S3storeFalseSetting) && !IsHeader(ApiOnlyTrueSetting)
    ensures S3storeTrueSetting != "" && S3storeFalseSetting != "" && ApiOnlyTrueSetting != ""
  {
    assert LogonSectionHeader[0] == '[' && IBGatewaySectionHeader[0] == '[';
    assert S3storeTrueSetting[0] == 's' && S3storeFalseSetting[0] == 's' && ApiOnlyTrueSetting[0] == 'A';
  }

  predicate IsManagedHeader(l: string) {
    l == LogonSectionHeader || l == IBGatewaySectionHeader
  }

  // ---------------------------------------------------------------------
  // Looking a setting up: findSettingInSection and getSetting
  // ---------------------------------------------------------------------

  /** The first line equal to `section` opens the only block that is searched;
      that block ends at the next line starting with "[". */
  predicate SettingInSection(lines: seq<string>, section: string, setting: string)
    decreases |lines|
  {
    if lines == [] then false
    else if lines[0] == section then SettingInBlock(lines[1..], setting)
    else SettingInSection(lines[1..], section, setting)
  }

  predicate SettingInBlock(block: seq<string>, setting: string)
    decreases |block|
  {
    if block == [] then false
    else if IsHeader(block[0]) then false
    else block[0] == setting || SettingInBlock(block[1..], setting)
  }

  /** The text after `setting=` on the first line of the first `section`
      block that starts with `setting=`. */
  function SettingValue(lines: seq<string>, section: string, setting: string): Option<string>
    decreases |lines|
  {
    if lines == [] then None
    else if lines[0] == section then ValueInBlock(lines[1..], setting + "=")
    else SettingValue(lines[1..], section, setting)
  }

  function ValueInBlock(block: seq<string>, key: string): Option<string>
    decreases |block|
  {
    if block == [] then None
    else if IsHeader(block[0]) then None
    else if StartsWith(block[0], key) then Some(block[0][|key|..])
    else ValueInBlock(block[1..], key)
  }

  /** findSettingInSection: an exact-line match inside the first block headed
      by `section`. */
  method FindSettingInSection(lines: seq<string>, section: string, setting: string)
    returns (found: bool)
    ensures found == SettingInSection(lines, section, setting)
  {
    var pos := 0;
    while pos < |lines|
      invariant 0 <= pos <= |lines|
      invariant SettingInSection(lines[pos..], section, setting) == SettingInSection(lines, section, setting)
    {
      var l := lines[pos];
      assert lines[pos..][1..] == lines[pos + 1..];
      pos := pos + 1;
      if l == section {
        while pos < |lines|
          invariant 0 <= pos <= |lines|
          invariant SettingInBlock(lines[pos..], setting) == SettingInSection(lines, section, setting)
        {
          l := lines[pos];
          assert lines[pos..][1..] == lines[pos + 1..];
          pos := pos + 1;
          if IsHeader(l) {
            break;
          } else if l == setting {
            return true;
          }
        }
        return false;
      }
    }
    return false;
  }

  /** getSetting: None stands for the null it returns when the section is
      absent, when its first block has no `setting=` line, or when a "[" line
      comes first. */
  method GetSetting(lines: seq<string>, section: string, setting: string)
    returns (value: Option<string>)
    ensures value == SettingValue(lines, section, setting)
  {
    var key := setting + "=";
    var found := false;
    var l := "";
    var pos := 0;
    while pos < |lines| && !found
      invariant 0 <= pos <= |lines|
      invariant !found ==> SettingValue(lines[pos..], section, setting) == SettingValue(lines, section, setting)
      invariant found ==> StartsWith(l, key) && SettingValue(lines, section, setting) == Some(l[|key|..])
    {
      l := lines[pos];
      assert lines[pos..][1..] == lines[pos + 1..];
      pos := pos + 1;
      if l == section {
        while pos < |lines| && !found
          invariant 0 <= pos <= |lines|
          invariant !found ==> ValueInBlock(lines[pos..], key) == SettingValue(lines, section, setting)
          invariant found ==> StartsWith(l, key) && SettingValue(lines, section, setting) == Some(l[|key|..])
        {
          l := lines[pos];
          assert lines[pos..][1..] == lines[pos + 1..];
          pos := pos + 1;
          if StartsWith(l, key) {
            found := true;
          }
          if IsHeader(l) {
            return None;
          }
        }
      }
    }
    if !found {
      return None;
    }
    value := Some(l[|key|..]);
  }

  /** existingFileOk: [Logon] holds s3store=false or s3store=true, and
      [IBGateway] holds ApiOnly=true. */
  predicate FileOk(lines: seq<string>) {
    (SettingInSection(lines, LogonSectionHeader, S3storeFalseSetting) ||
     SettingInSection(lines, LogonSectionHeader, S3storeTrueSetting)) &&
    SettingInSection(lines, IBGatewaySectionHeader, ApiOnlyTrueSetting)
  }

  method ExistingFileOk(lines: seq<string>) returns (ok: bool)
    ensures ok == FileOk(lines)
  {
    var s3False := FindSettingInSection(lines, LogonSectionHeader, S3storeFalseSetting);
    var s3True := FindSettingInSection(lines, LogonSectionHeader, S3storeTrueSetting);
    var apiOnly := FindSettingInSection(lines, IBGatewaySectionHeader, ApiOnlyTrueSetting);
    ok := (s3False || s3True) && apiOnly;
  }

  // ---------------------------------------------------------------------
  // Rewriting: processSection and rewriteExistingFile
  // ---------------------------------------------------------------------

  /** The index of the first header at or after j, or |lines|: the end of
      the block that starts at j. */
  function BlockEnd(lines: seq<string>, j: nat): (e: nat)
    requires j <= |lines|
    ensures j <= e <= |lines|
    decreases |lines| - j
  {
    if j == |lines| || IsHeader(lines[j]) then j else BlockEnd(lines, j + 1)
  }

  /** The block holds no header, and ends at one or at the end of the file. */
  lemma {:induction false} BlockEndFacts(lines: seq<string>, j: nat)
    requires j <= |lines|
    ensures forall k :: j <= k < BlockEnd(lines, j) ==> !IsHeader(lines[k])
    ensures BlockEnd(lines, j) < |lines| ==> IsHeader(lines[BlockEnd(lines, j)])
    decreases |lines| - j
  {
    if j < |lines| && !IsHeader(lines[j]) {
      BlockEndFacts(lines, j + 1);
    }
  }

  /** The lines of `s` that are not empty, in order. */
  function NonBlank(s: seq<string>): seq<string>
    decreases |s|
  {
    if s == [] then [] else (if s[0] == "" then [] else [s[0]]) + NonBlank(s[1..])
  }

  /** processSection looks at every line up to and including the header that
      stops it. */
  function ScanStop(lines: seq<string>, j: nat): (stop: nat)
    requires j <= |lines|
    ensures j <= stop <= |lines|
  {
    var e := BlockEnd(lines, j);
    if e < |lines| then e + 1 else e
  }

  predicate SectionHasSetting(lines: seq<string>, j: nat, settings: seq<string>)
    requires j <= |lines|
  {
    exists k :: j <= k < ScanStop(lines, j) && lines[k] in settings
  }

  /** What processSection writes for the block that starts at j. */
  function SectionOutput(lines: seq<string>, j: nat, settings: seq<string>): seq<string>
    requires j <= |lines| && |settings| > 0
  {
    NonBlank(lines[j..BlockEnd(lines, j)])
    + (if SectionHasSetting(lines, j, settings) then [] else [settings[0]])
    + [""]
  }

  /** The sections rewriteExistingFile appends when it never met their header. */
  function MissingSections(foundLogon: bool, foundIBGateway: bool): seq<string> {
    (if foundLogon then [] else [LogonSectionHeader, S3storeTrueSetting])
    + (if foundIBGateway then [] else [IBGatewaySectionHeader, ApiOnlyTrueSetting])
  }

  /** The settings processSection is given for a managed section. */
  function SectionSettings(header: string): seq<string> {
    if header == LogonSectionHeader then LogonSettings else IBGatewaySettings
  }

  /** What one pass of rewriteExistingFile's loop writes for line i: a
      managed header is followed by its processed section, any other line
      is copied. */
  function RewriteStep(lines: seq<string>, i: nat): seq<string>
    requires i < |lines|
  {
    if IsManagedHeader(lines[i]) then [lines[i]] + SectionOutput(lines, i + 1, SectionSettings(lines[i]))
    else [lines[i]]
  }

  /** The index the next pass of that loop starts at. */
  function NextIndex(lines: seq<string>, i: nat): (n: nat)
    requires i < |lines|
    ensures i < n <= |lines|
  {
    if IsManagedHeader(lines[i]) then BlockEnd(lines, i + 1) else i + 1
  }

  /** What rewriteExistingFile writes from line i on, given whether it has
      already met the [Logon] and [IBGateway] headers. */
  function RewriteFrom(lines: seq<string>, i: nat, foundLogon: bool, foundIBGateway: bool): seq<string>
    requires i <= |lines|
    decreases |lines| - i
  {
    if i == |lines| then
      MissingSections(foundLogon, foundIBGateway)
    else
      RewriteStep(lines, i)
      + RewriteFrom(lines, NextIndex(lines, i),
          foundLogon || lines[i] == LogonSectionHeader,
          foundIBGateway || lines[i] == IBGatewaySectionHeader)
  }

  function Rewrite(lines: seq<string>): seq<string> {
    RewriteFrom(lines, 0, false, false)
  }

  lemma {:induction false} NonBlankAppend(a: seq<string>, b: seq<string>)
    ensures NonBlank(a + b) == NonBlank(a) + NonBlank(b)
    decreases |a|
  {
    if a != [] {
      assert (a + b)[0] == a[0];
      assert (a + b)[1..] == a[1..] + b;
      NonBlankAppend(a[1..], b);
    } else {
      assert a + b == b;
    }
  }

  /** processSection: copies the non-blank lines of the block, appends
      settings[0] unless one of `settings` was seen, then one blank line, and
      returns the index of the header that ended the block. */
  method ProcessSection(lines: seq<string>, startIndex: nat, settings: seq<string>, w: seq<string>)
    returns (index: nat, written: seq<string>)
    requires startIndex <= |lines| && |settings| > 0
    ensures index == BlockEnd(lines, startIndex)
    ensures written == w + SectionOutput(lines, startIndex, settings)
  {
    index := startIndex;
    var found := false;
    written := w;
    var pos := index;
    while pos < |lines|
      invariant startIndex <= pos <= |lines| && index == pos
      invariant BlockEnd(lines, pos) == BlockEnd(lines, startIndex)
      invariant found == exists k :: startIndex <= k < pos && lines[k] in settings
      invariant written == w + NonBlank(lines[startIndex..pos])
    {
      var l := lines[pos];
      assert lines[startIndex..pos + 1] == lines[startIndex..pos] + [l];
      NonBlankAppend(lines[startIndex..pos], [l]);
      pos := pos + 1;
      var matched := IsOneOf(l, settings);
      if matched {
        found := true;
      }
      if l == "" {
        index := index + 1;
      } else if IsHeader(l) {
        break;
      } else {
        written := written + [l];
        index := index + 1;
      }
    }
    if !found {
      written := written + [settings[0]];
    }
    written := written + [""];
  }

  /** One pass of rewriteExistingFile's loop, at line `index`: writes the
      line, and the rest of its section after a managed header; returns the
      index of the next pass and the updated found flags. */
  method RewriteLine(lines: seq<string>, index: nat, w: seq<string>, foundLogon: bool, foundIBGateway: bool)
    returns (next: nat, written: seq<string>, foundLogon': bool, foundIBGateway': bool)
    requires index < |lines|
    ensures next == NextIndex(lines, index)
    ensures written == w + RewriteStep(lines, index)
    ensures foundLogon' == (foundLogon || lines[index] == LogonSectionHeader)
    ensures foundIBGateway' == (foundIBGateway || lines[index] == IBGatewaySectionHeader)
  {
    next := index + 1;
    var l := lines[index];
    foundLogon', foundIBGateway' := foundLogon, foundIBGateway;
    if l == LogonSectionHeader {
      written := w + [l];
      foundLogon' := true;
      next, written := ProcessSection(lines, next, LogonSettings, written);
    } else if l == IBGatewaySectionHeader {
      written := w + [l];
      foundIBGateway' := true;
      next, written := ProcessSection(lines, next, IBGatewaySettings, written);
    } else {
      written := w + [l];
    }
  }

  /** The loop over `settings` inside processSection. */
  method IsOneOf(l: string, settings: seq<string>) returns (found: bool)
    ensures found <==> l in settings
  {
    found := false;
    var n := 0;
    while n < |settings|
      invariant 0 <= n <= |settings|
      invariant found <==> l in settings[..n]
    {
      if l == settings[n] {
        found := true;
        break;
      }
      n := n + 1;
    }
    assert settings[..|settings|] == settings;
  }

  /** rewriteExistingFile: the new contents of the file. */
  method RewriteExistingFile(lines: seq<string>) returns (w: seq<string>)
    ensures w == Rewrite(lines)
  {
    var foundLogon := false;
    var foundIBGateway := false;
    w := [];
    var index := 0;
    ghost var target := Rewrite(lines);
    while index < |lines|
      invariant index <= |lines|
      invariant w + RewriteFrom(lines, index, foundLogon, foundIBGateway) == target
      decreases |lines| - index
    {
      ghost var i0, w0 := index, w;
      index, w, foundLogon, foundIBGateway := RewriteLine(lines, index, w, foundLogon, foundIBGateway);
      Regroup(w0, RewriteStep(lines, i0), RewriteFrom(lines, index, foundLogon, foundIBGateway), target);
    }
    if !foundLogon {
      w := w + [LogonSectionHeader];
      w := w + [S3storeTrueSetting];
    }
    if !foundIBGateway {
      w := w + [IBGatewaySectionHeader];
      w := w + [ApiOnlyTrueSetting];
    }
  }

  lemma Regroup(a: seq<string>, b: seq<string>, c: seq<string>, t: seq<string>)
    requires a + (b + c) == t
    ensures (a + b) + c == t
  {
  }

  /** createMinimalFile: the contents of a newly created file. */
  method CreateMinimalFile() returns (w: seq<string>)
    ensures w == MinimalFile
    ensures FileOk(w)
  {
    w := [];
    w := w + [LogonSectionHeader];
    w := w + [S3storeTrueSetting];
    w := w + [IBGatewaySectionHeader];
    w := w + [ApiOnlyTrueSetting];
    MinimalFileOk();
  }

  // ---------------------------------------------------------------------
  // The file on disk: ensureValidJtsIniFile, loadIniFile, updateExistingFile
  // ---------------------------------------------------------------------

  datatype FileEntry = Absent | Directory | Regular(contents: seq<string>)

  /** Utils.exitWithError(ERROR_CODE_INVALID_JTSINI_PATH, ...) ends the process. */
  datatype Status = Continue | ExitInvalidJtsIniPath

  /** What ensureValidJtsIniFile leaves on disk. */
  function EnsuredFile(f: FileEntry): FileEntry {
    match f
    case Absent => Regular(MinimalFile)
    case Directory => Directory
    case Regular(ls) => Regular(if FileOk(ls) then ls else Rewrite(ls))
  }

  class JtsIniManager {
    /** jts.ini as it stands on disk at the configured path. */
    var file: FileEntry
    /** The lines read by the last load (the static field `lines`). */
    var lines: seq<string>

    constructor (file: FileEntry)
      ensures this.file == file && lines == []
    {
      this.file := file;
      lines := [];
    }

    /** loadIniFile: a directory at the path ends the process; a regular file
        is read into `lines`; a missing file leaves `lines` as it was. */
    method LoadIniFile() returns (status: Status)
      modifies this`lines
      ensures status == (if file.Directory? then ExitInvalidJtsIniPath else Continue)
      ensures lines == (if file.Regular? then file.contents else old(lines))
    {
      if file.Directory? {
        return ExitInvalidJtsIniPath;
      }
      if file.Regular? {
        lines := file.contents;
      }
      return Continue;
    }

    /** reload */
    method Reload() returns (status: Status)
      modifies this`lines
      ensures status == (if file.Directory? then ExitInvalidJtsIniPath else Continue)
      ensures lines == (if file.Regular? then file.contents else old(lines))
    {
      status := LoadIniFile();
    }

    /** updateExistingFile: the file is rewritten from the loaded lines only
        when they fail existingFileOk. */
    method UpdateExistingFile()
      requires file.Regular?
      modifies this`file
      ensures file == (if FileOk(lines) then old(file) else Regular(Rewrite(lines)))
    {
      var ok := ExistingFileOk(lines);
      if !ok {
        var w := RewriteExistingFile(lines);
        file := Regular(w);
      }
    }

    /** ensureValidJtsIniFile. The loaded `lines` still hold the old contents
        afterwards: the rewritten file is not read back. */
    method EnsureValidJtsIniFile() returns (status: Status)
      modifies this
      ensures status == (if old(file).Directory? then ExitInvalidJtsIniPath else Continue)
      ensures file == EnsuredFile(old(file))
      ensures lines == (if old(file).Regular? then old(file).contents else old(lines))
    {
      status := LoadIniFile();
      if status == ExitInvalidJtsIniPath {
        return;
      }
      if file.Regular? {
        UpdateExistingFile();
      } else {
        var w := CreateMinimalFile();
        file := Regular(w);
      }
    }
  }

  // ---------------------------------------------------------------------
  // Properties of the lookup
  // ---------------------------------------------------------------------

  lemma {:induction false} SettingInBlockIsMembership(c: seq<string>, d: seq<string>, setting: string)
    requires forall k :: 0 <= k < |c| ==> !IsHeader(c[k])
    requires d == [] || IsHeader(d[0])
    ensures SettingInBlock(c + d, setting) <==> setting in c
    decreases |c|
  {
    if c == [] {
      assert c + d == d;
    } else {
      assert (c + d)[1..] == c[1..] + d;
      SettingInBlockIsMembership(c[1..], d, setting);
    }
  }

  lemma {:induction false} SettingInSectionSkip(a: seq<string>, b: seq<string>, section: string, setting: string)
    requires section !in a
    ensures SettingInSection(a + b, section, setting) == SettingInSection(b, section, setting)
    decreases |a|
  {
    if a != [] {
      assert (a + b)[0] == a[0];
      assert (a + b)[1..] == a[1..] + b;
      SettingInSectionSkip(a[1..], b, section, setting);
    } else {
      assert a + b == b;
    }
  }

  /** Only the first block headed by `section` is consulted: with p free of
      that header, c free of header lines and d starting with a header (or
      empty), whatever later, duplicate sections d holds are never read. */
  lemma FirstSectionOnly(p: seq<string>, c: seq<string>, d: seq<string>, section: string, setting: string)
    requires section !in p
    requires forall k :: 0 <= k < |c| ==> !IsHeader(c[k])
    requires d == [] || IsHeader(d[0])
    ensures SettingInSection(p + [section] + c + d, section, setting) <==> setting in c
  {
    assert p + [section] + c + d == p + ([section] + c + d);
    SettingInSectionSkip(p, [section] + c + d, section, setting);
    assert ([section] + c + d)[1..] == c + d;
    SettingInBlockIsMembership(c, d, setting);
  }

  lemma {:induction false} ValueInBlockSound(block: seq<string>, key: string, v: string)
    requires ValueInBlock(block, key) == Some(v)
    ensures SettingInBlock(block, key + v)
    decreases |block|
  {
    if StartsWith(block[0], key) {
      assert block[0] == key + block[0][|key|..];
    } else {
      ValueInBlockSound(block[1..], key, v);
    }
  }

  lemma {:induction false} ValueInBlockComplete(block: seq<string>, key: string, v: string)
    requires SettingInBlock(block, key + v)
    ensures ValueInBlock(block, key).Some?
    decreases |block|
  {
    if block[0] == key + v {
      assert (key + v)[..|key|] == key;
    } else if !StartsWith(block[0], key) {
      ValueInBlockComplete(block[1..], key, v);
    }
  }

  /** getSetting agrees with findSettingInSection: the value it returns comes
      from a `setting=value` line of the first block of `section`, and it
      finds a value whenever such a line is there. */
  lemma {:induction false} SettingValueMatchesLine(lines: seq<string>, section: string, setting: string, v: string)
    ensures SettingValue(lines, section, setting) == Some(v) ==> SettingInSection(lines, section, setting + "=" + v)
    ensures SettingInSection(lines, section, setting + "=" + v) ==> SettingValue(lines, section, setting).Some?
    decreases |lines|
  {
    if lines != [] {
      if lines[0] == section {
        if SettingValue(lines, section, setting) == Some(v) {
          ValueInBlockSound(lines[1..], setting + "=", v);
        }
        if SettingInSection(lines, section, setting + "=" + v) {
          ValueInBlockComplete(lines[1..], setting + "=", v);
        }
      } else {
        SettingValueMatchesLine(lines[1..], section, setting, v);
      }
    }
  }

  // ---------------------------------------------------------------------
  // Properties of the rewrite
  // ---------------------------------------------------------------------

  lemma {:induction false} NonBlankElements(s: seq<string>)
    ensures forall x :: x in NonBlank(s) ==> x in s && x != ""
    ensures forall x :: x in s && x != "" ==> x in NonBlank(s)
    decreases |s|
  {
    if s != [] {
      NonBlankElements(s[1..]);
    }
  }

  /** The lines processSection writes contain no header, end with the one
      blank line it adds, and hold no other blank line. */
  lemma SectionOutputShape(lines: seq<string>, j: nat, settings: seq<string>)
    requires j <= |lines| && |settings| > 0 && settings[0] != "" && !IsHeader(settings[0])
    ensures var out := SectionOutput(lines, j, settings);
      && |out| > 0 && out[|out| - 1] == ""
      && (forall k :: 0 <= k < |out| - 1 ==> out[k] != "")
      && (forall k :: 0 <= k < |out| ==> !IsHeader(out[k]))
  {
    var e := BlockEnd(lines, j);
    BlockEndFacts(lines, j);
    NonBlankElements(lines[j..e]);
    var out := SectionOutput(lines, j, settings);
    forall k | 0 <= k < |out|
      ensures !IsHeader(out[k])
      ensures k < |out| - 1 ==> out[k] != ""
    {
      var nb := NonBlank(lines[j..e]);
      if k < |nb| {
        assert out[k] in nb;
      }
    }
  }

  /** A setting processSection saw in the block was a non-blank line of it,
      and so was copied. */
  lemma SectionSettingCopied(lines: seq<string>, j: nat, settings: seq<string>)
    requires j <= |lines| && |settings| > 0
    requires forall s :: s in settings ==> !IsHeader(s) && s != ""
    ensures forall s :: s in settings && s in lines[j..BlockEnd(lines, j)] ==> s in SectionOutput(lines, j, settings)
    ensures SectionHasSetting(lines, j, settings) <==> exists s :: s in settings && s in lines[j..BlockEnd(lines, j)]
  {
    var e := BlockEnd(lines, j);
    BlockEndFacts(lines, j);
    NonBlankElements(lines[j..e]);
    if SectionHasSetting(lines, j, settings) {
      var k :| j <= k < ScanStop(lines, j) && lines[k] in settings;
      assert k < e;
      assert lines[k] == lines[j..e][k - j];
    }
    forall s | s in settings && s in lines[j..e]
      ensures SectionHasSetting(lines, j, settings)
    {
      var k :| 0 <= k < e - j && lines[j..e][k] == s;
      assert lines[j + k] == s;
    }
  }

  /** processSection never adds s3store=true next to an existing
      s3store=false, and keeps that s3store=false. */
  lemma LogonSectionKeepsS3store(lines: seq<string>, j: nat)
    requires j <= |lines|
    ensures var block := lines[j..BlockEnd(lines, j)];
      var out := SectionOutput(lines, j, LogonSettings);
      && (S3storeFalseSetting in block ==> S3storeFalseSetting in out)
      && (S3storeTrueSetting in out <==> S3storeTrueSetting in block || S3storeFalseSetting !in block)
      && (S3storeTrueSetting in out || S3storeFalseSetting in out)
  {
    var e := BlockEnd(lines, j);
    ConstantsClassified();
    SectionSettingCopied(lines, j, LogonSettings);
    NonBlankElements(lines[j..e]);
  }

  /** The IBGateway block always ends up holding ApiOnly=true. */
  lemma IBGatewaySectionHasApiOnly(lines: seq<string>, j: nat)
    requires j <= |lines|
    ensures ApiOnlyTrueSetting in SectionOutput(lines, j, IBGatewaySettings)
  {
    ConstantsClassified();
    SectionSettingCopied(lines, j, IBGatewaySettings);
  }

  /** What one pass writes starts with the line it stands on; a managed
      header's section adds no further header. */
  lemma StepShape(lines: seq<string>, i: nat)
    requires i < |lines|
    ensures |RewriteStep(lines, i)| > 0 && RewriteStep(lines, i)[0] == lines[i]
    ensures forall k :: 1 <= k < |RewriteStep(lines, i)| ==> !IsHeader(RewriteStep(lines, i)[k])
  {
    if IsManagedHeader(lines[i]) {
      ConstantsClassified();
      SectionOutputShape(lines, i + 1, SectionSettings(lines[i]));
    }
  }

  lemma HeaderNotInStep(lines: seq<string>, i: nat, x: string)
    requires i < |lines| && IsHeader(x) && x != lines[i]
    ensures x !in RewriteStep(lines, i)
  {
    StepShape(lines, i);
  }

  lemma RewriteFromStartsWithHeader(lines: seq<string>, e: nat, foundLogon: bool, foundIBGateway: bool)
    requires e <= |lines|
    requires e == |lines| || IsHeader(lines[e])
    ensures var r := RewriteFrom(lines, e, foundLogon, foundIBGateway);
      r == [] || IsHeader(r[0])
  {
    ConstantsClassified();
    if e < |lines| {
      StepShape(lines, e);
    }
  }

  predicate LogonOk(lines: seq<string>) {
    SettingInSection(lines, LogonSectionHeader, S3storeFalseSetting) ||
    SettingInSection(lines, LogonSectionHeader, S3storeTrueSetting)
  }

  predicate IBGatewayOk(lines: seq<string>) {
    SettingInSection(lines, IBGatewaySectionHeader, ApiOnlyTrueSetting)
  }

  /** A block that holds `setting` followed by the rest of a rewrite. */
  lemma SectionThenRest(p: seq<string>, section: string, out: seq<string>, rest: seq<string>, setting: string)
    requires section !in p && setting in out
    requires forall k :: 0 <= k < |out| ==> !IsHeader(out[k])
    requires rest == [] || IsHeader(rest[0])
    ensures SettingInSection(p + ([section] + out) + rest, section, setting)
  {
    assert p + ([section] + out) + rest == p + [section] + out + rest;
    FirstSectionOnly(p, out, rest, section, setting);
  }

  /** The pass at a [Logon] header writes a block that satisfies the check. */
  lemma LogonStepOk(lines: seq<string>, i: nat, rest: seq<string>)
    requires i < |lines| && lines[i] == LogonSectionHeader
    requires rest == [] || IsHeader(rest[0])
    ensures LogonOk(RewriteStep(lines, i) + rest)
  {
    var out := SectionOutput(lines, i + 1, LogonSettings);
    SectionOutputShape(lines, i + 1, LogonSettings) by { ConstantsClassified(); }
    LogonSectionKeepsS3store(lines, i + 1);
    assert RewriteStep(lines, i) == [LogonSectionHeader] + out;
    if S3storeTrueSetting in out {
      SectionThenRest([], LogonSectionHeader, out, rest, S3storeTrueSetting);
    } else {
      SectionThenRest([], LogonSectionHeader, out, rest, S3storeFalseSetting);
    }
    assert [] + ([LogonSectionHeader] + out) + rest == RewriteStep(lines, i) + rest;
  }

  lemma IBGatewayStepOk(lines: seq<string>, i: nat, rest: seq<string>)
    requires i < |lines| && lines[i] == IBGatewaySectionHeader
    requires rest == [] || IsHeader(rest[0])
    ensures IBGatewayOk(RewriteStep(lines, i) + rest)
  {
    var out := SectionOutput(lines, i + 1, IBGatewaySettings);
    SectionOutputShape(lines, i + 1, IBGatewaySettings) by { ConstantsClassified(); }
    IBGatewaySectionHasApiOnly(lines, i + 1);
    assert RewriteStep(lines, i) == [IBGatewaySectionHeader] + out;
    SectionThenRest([], IBGatewaySectionHeader, out, rest, ApiOnlyTrueSetting);
    assert [] + ([IBGatewaySectionHeader] + out) + rest == RewriteStep(lines, i) + rest;
  }

  lemma {:induction false} RewriteFromLogonOk(lines: seq<string>, i: nat, foundIBGateway: bool)
    requires i <= |lines|
    ensures LogonOk(RewriteFrom(lines, i, false, foundIBGateway))
    decreases |lines| - i
  {
    if i == |lines| {
      var tail := if foundIBGateway then [] else [IBGatewaySectionHeader, ApiOnlyTrueSetting];
      ConstantsClassified();
      SectionThenRest([], LogonSectionHeader, [S3storeTrueSetting], tail, S3storeTrueSetting);
      assert RewriteFrom(lines, i, false, foundIBGateway) == [] + ([LogonSectionHeader] + [S3storeTrueSetting]) + tail;
    } else {
      var n := NextIndex(lines, i);
      var g := foundIBGateway || lines[i] == IBGatewaySectionHeader;
      var rest := RewriteFrom(lines, n, lines[i] == LogonSectionHeader, g);
      assert RewriteFrom(lines, i, false, foundIBGateway) == RewriteStep(lines, i) + rest;
      if lines[i] == LogonSectionHeader {
        BlockEndFacts(lines, i + 1);
        RewriteFromStartsWithHeader(lines, n, true, g);
        LogonStepOk(lines, i, rest);
      } else {
        ConstantsClassified();
        HeaderNotInStep(lines, i, LogonSectionHeader);
        RewriteFromLogonOk(lines, n, g);
        SettingInSectionSkip(RewriteStep(lines, i), rest, LogonSectionHeader, S3storeTrueSetting);
        SettingInSectionSkip(RewriteStep(lines, i), rest, LogonSectionHeader, S3storeFalseSetting);
      }
    }
  }

  lemma {:induction false} RewriteFromIBGatewayOk(lines: seq<string>, i: nat, foundLogon: bool)
    requires i <= |lines|
    ensures IBGatewayOk(RewriteFrom(lines, i, foundLogon, false))
    decreases |lines| - i
  {
    if i == |lines| {
      var head := if foundLogon then [] else [LogonSectionHeader, S3storeTrueSetting];
      ConstantsClassified();
      SectionThenRest(head, IBGatewaySectionHeader, [ApiOnlyTrueSetting], [], ApiOnlyTrueSetting);
      assert RewriteFrom(lines, i, foundLogon, false) == head + ([IBGatewaySectionHeader] + [ApiOnlyTrueSetting]) + [];
    } else {
      var n := NextIndex(lines, i);
      var l := foundLogon || lines[i] == LogonSectionHeader;
      var rest := RewriteFrom(lines, n, l, lines[i] == IBGatewaySectionHeader);
      assert RewriteFrom(lines, i, foundLogon, false) == RewriteStep(lines, i) + rest;
      if lines[i] == IBGatewaySectionHeader {
        BlockEndFacts(lines, i + 1);
        RewriteFromStartsWithHeader(lines, n, l, true);
        IBGatewayStepOk(lines, i, rest);
      } else {
        ConstantsClassified();
        HeaderNotInStep(lines, i, IBGatewaySectionHeader);
        RewriteFromIBGatewayOk(lines, n, l);
        SettingInSectionSkip(RewriteStep(lines, i), rest, IBGatewaySectionHeader, ApiOnlyTrueSetting);
      }
    }
  }

  /** The rewritten file passes existingFileOk. */
  lemma RewriteIsValid(lines: seq<string>)
    ensures FileOk(Rewrite(lines))
  {
    RewriteFromLogonOk(lines, 0, false);
    RewriteFromIBGatewayOk(lines, 0, false);
  }

  /** The minimal file passes existingFileOk. */
  lemma MinimalFileOk()
    ensures FileOk(MinimalFile)
  {
    ConstantsClassified();
    assert MinimalFile == [] + [LogonSectionHeader] + [S3storeTrueSetting]
      + [IBGatewaySectionHeader, ApiOnlyTrueSetting];
    FirstSectionOnly([], [S3storeTrueSetting], [IBGatewaySectionHeader, ApiOnlyTrueSetting],
      LogonSectionHeader, S3storeTrueSetting);
    assert MinimalFile == [LogonSectionHeader, S3storeTrueSetting] + [IBGatewaySectionHeader]
      + [ApiOnlyTrueSetting] + [];
    FirstSectionOnly([LogonSectionHeader, S3storeTrueSetting], [ApiOnlyTrueSetting], [],
      IBGatewaySectionHeader, ApiOnlyTrueSetting);
  }

  /** After ensureValidJtsIniFile the file on disk passes existingFileOk. */
  lemma EnsuredFileIsValid(f: FileEntry)
    requires !f.Directory?
    ensures EnsuredFile(f).Regular? && FileOk(EnsuredFile(f).contents)
  {
    match f
    case Absent => MinimalFileOk();
    case Regular(ls) => if !FileOk(ls) { RewriteIsValid(ls); }
  }

  /** A file that passes is left as it is, so a second run changes nothing. */
  lemma EnsureValidIsIdempotent(f: FileEntry)
    ensures f.Regular? && FileOk(f.contents) ==> EnsuredFile(f) == f
    ensures EnsuredFile(EnsuredFile(f)) == EnsuredFile(f)
  {
    if !f.Directory? {
      EnsuredFileIsValid(f);
    }
  }

  // The lines a rewrite keeps: every line, except the blank lines inside a
  // [Logon] or [IBGateway] section.

  /** The input lines with the blank lines of the managed sections removed,
      read line by line: a managed header opens a managed section, any other
      header closes it. */
  function RetainedFrom(lines: seq<string>, i: nat, inManaged: bool): seq<string>
    requires i <= |lines|
    decreases |lines| - i
  {
    if i == |lines| then []
    else if IsManagedHeader(lines[i]) then [lines[i]] + RetainedFrom(lines, i + 1, true)
    else if IsHeader(lines[i]) then [lines[i]] + RetainedFrom(lines, i + 1, false)
    else if inManaged && lines[i] == "" then RetainedFrom(lines, i + 1, true)
    else [lines[i]] + RetainedFrom(lines, i + 1, inManaged)
  }

  function Retained(lines: seq<string>): seq<string> {
    RetainedFrom(lines, 0, false)
  }

  /** a is a subsequence of b: b with some elements deleted is a. */
  predicate IsSubsequence<T(==)>(a: seq<T>, b: seq<T>)
    decreases |b|
  {
    if b == [] then a == []
    else IsSubsequence(a, b[1..]) || (a != [] && a[0] == b[0] && IsSubsequence(a[1..], b[1..]))
  }

  lemma {:induction false} SubsequenceInsert<T>(a: seq<T>, b: seq<T>, c: seq<T>)
    requires IsSubsequence(a, b)
    ensures IsSubsequence(a, c + b)
    decreases |c|
  {
    if c != [] {
      assert (c + b)[1..] == c[1..] + b;
      SubsequenceInsert(a, b, c[1..]);
    } else {
      assert c + b == b;
    }
  }

  lemma {:induction false} SubsequencePrefix<T>(a: seq<T>, b: seq<T>, p: seq<T>)
    requires IsSubsequence(a, b)
    ensures IsSubsequence(p + a, p + b)
    decreases |p|
  {
    if p != [] {
      SubsequencePrefix(a, b, p[1..]);
      assert (p + a)[1..] == p[1..] + a;
      assert (p + b)[1..] == p[1..] + b;
    } else {
      assert p + a == a && p + b == b;
    }
  }

  lemma {:induction false} RetainedBlock(lines: seq<string>, j: nat)
    requires j <= |lines|
    ensures RetainedFrom(lines, j, true)
      == NonBlank(lines[j..BlockEnd(lines, j)]) + RetainedFrom(lines, BlockEnd(lines, j), true)
    decreases |lines| - j
  {
    var e := BlockEnd(lines, j);
    if j < e {
      assert lines[j..][1..] == lines[j + 1..];
      assert BlockEnd(lines, j + 1) == e;
      RetainedBlock(lines, j + 1);
      assert lines[j..e][1..] == lines[j + 1..e];
    } else {
      assert lines[j..e] == [];
    }
  }

  lemma {:induction false} EmptySubsequence<T>(b: seq<T>)
    ensures IsSubsequence([], b)
    decreases |b|
  {
    if b != [] {
      EmptySubsequence(b[1..]);
    }
  }

  lemma SectionKept(h: seq<string>, kept: seq<string>, added: seq<string>, rr: seq<string>, wr: seq<string>)
    requires IsSubsequence(rr, wr)
    ensures IsSubsequence(h + (kept + rr), h + (kept + added) + wr)
  {
    SubsequenceInsert(rr, wr, added);
    SubsequencePrefix(rr, added + wr, h + kept);
    assert h + (kept + rr) == (h + kept) + rr;
    assert h + (kept + added) + wr == (h + kept) + (added + wr);
  }

  /** One managed section of the rewrite keeps the section's non-blank lines,
      given that the rest of the rewrite keeps the rest. */
  lemma RewriteKeepsSection(lines: seq<string>, i: nat, rr: seq<string>, wr: seq<string>)
    requires i < |lines| && IsManagedHeader(lines[i])
    requires rr == RetainedFrom(lines, NextIndex(lines, i), false)
    requires IsSubsequence(rr, wr)
    ensures IsSubsequence(RetainedFrom(lines, i, false), RewriteStep(lines, i) + wr)
  {
    var settings := SectionSettings(lines[i]);
    var e := BlockEnd(lines, i + 1);
    var kept := NonBlank(lines[i + 1..e]);
    var added := if SectionHasSetting(lines, i + 1, settings) then [] else [settings[0]];
    assert RetainedFrom(lines, i, false) == [lines[i]] + (kept + rr) by {
      BlockEndFacts(lines, i + 1);
      RetainedBlock(lines, i + 1);
      assert RetainedFrom(lines, e, true) == rr;
    }
    assert RewriteStep(lines, i) == [lines[i]] + (kept + (added + [""]));
    SectionKept([lines[i]], kept, added + [""], rr, wr);
  }

  lemma {:induction false} RewriteKeepsFrom(lines: seq<string>, i: nat, foundLogon: bool, foundIBGateway: bool)
    requires i <= |lines|
    ensures IsSubsequence(RetainedFrom(lines, i, false), RewriteFrom(lines, i, foundLogon, foundIBGateway))
    decreases |lines| - i
  {
    if i == |lines| {
      EmptySubsequence(RewriteFrom(lines, i, foundLogon, foundIBGateway));
    } else {
      var n := NextIndex(lines, i);
      var fl := foundLogon || lines[i] == LogonSectionHeader;
      var fg := foundIBGateway || lines[i] == IBGatewaySectionHeader;
      var wr := RewriteFrom(lines, n, fl, fg);
      assert RewriteFrom(lines, i, foundLogon, foundIBGateway) == RewriteStep(lines, i) + wr;
      RewriteKeepsFrom(lines, n, fl, fg);
      if IsManagedHeader(lines[i]) {
        RewriteKeepsSection(lines, i, RetainedFrom(lines, n, false), wr);
      } else {
        assert RetainedFrom(lines, i, false) == [lines[i]] + RetainedFrom(lines, n, false);
        SubsequencePrefix(RetainedFrom(lines, n, false), wr, [lines[i]]);
      }
    }
  }

  /** The rewrite keeps, in order, every line outside the two managed
      sections and every non-blank line inside them. */
  lemma RewriteKeepsLines(lines: seq<string>)
    ensures IsSubsequence(Retained(lines), Rewrite(lines))
  {
    RewriteKeepsFrom(lines, 0, false, false);
  }

  /** A header other than line i occurs from i on exactly when it occurs from
      the next pass's index on. */
  lemma HeaderAcrossStep(lines: seq<string>, i: nat, x: string)
    requires i < |lines| && IsHeader(x)
    ensures x in lines[i..] <==> x == lines[i] || x in lines[NextIndex(lines, i)..]
  {
    var n := NextIndex(lines, i);
    assert lines[i..] == [lines[i]] + lines[i + 1..n] + lines[n..];
    if IsManagedHeader(lines[i]) {
      BlockEndFacts(lines, i + 1);
    }
    assert x !in lines[i + 1..n] by {
      forall k | i + 1 <= k < n ensures lines[k] != x {
      }
    }
  }

  lemma {:induction false} RewriteFromSplitsOffMissing(lines: seq<string>, i: nat, foundLogon: bool, foundIBGateway: bool)
    requires i <= |lines|
    ensures RewriteFrom(lines, i, foundLogon, foundIBGateway)
      == RewriteFrom(lines, i, true, true)
         + MissingSections(foundLogon || LogonSectionHeader in lines[i..],
                           foundIBGateway || IBGatewaySectionHeader in lines[i..])
    decreases |lines| - i
  {
    if i < |lines| {
      var n := NextIndex(lines, i);
      var fl := foundLogon || lines[i] == LogonSectionHeader;
      var fg := foundIBGateway || lines[i] == IBGatewaySectionHeader;
      var step := RewriteStep(lines, i);
      ConstantsClassified();
      HeaderAcrossStep(lines, i, LogonSectionHeader);
      HeaderAcrossStep(lines, i, IBGatewaySectionHeader);
      var m := MissingSections(fl || LogonSectionHeader in lines[n..], fg || IBGatewaySectionHeader in lines[n..]);
      assert m == MissingSections(foundLogon || LogonSectionHeader in lines[i..],
                                  foundIBGateway || IBGatewaySectionHeader in lines[i..]);
      RewriteFromSplitsOffMissing(lines, n, fl, fg);
      RewriteFromSplitsOffMissing(lines, n, true, true);
      assert RewriteFrom(lines, i, true, true) == step + RewriteFrom(lines, n, true, true);
      assert RewriteFrom(lines, i, foundLogon, foundIBGateway) == step + (RewriteFrom(lines, n, true, true) + m);
    } else {
      assert MissingSections(true, true) == [];
    }
  }

  lemma {:induction false} RewriteFromCopiesUnmanaged(lines: seq<string>, i: nat)
    requires i <= |lines|
    requires LogonSectionHeader !in lines[i..] && IBGatewaySectionHeader !in lines[i..]
    ensures RewriteFrom(lines, i, true, true) == lines[i..]
    decreases |lines| - i
  {
    if i < |lines| {
      assert lines[i] in lines[i..];
      assert lines[i..] == [lines[i]] + lines[i + 1..];
      RewriteFromCopiesUnmanaged(lines, i + 1);
    }
  }

  /** A section that is missing is appended at the end, as its header and its
      default setting, [Logon] before [IBGateway]; a file with neither gets
      both appended and is otherwise copied. */
  lemma MissingSectionsAppended(lines: seq<string>)
    ensures Rewrite(lines) == RewriteFrom(lines, 0, true, true)
      + MissingSections(LogonSectionHeader in lines, IBGatewaySectionHeader in lines)
    ensures LogonSectionHeader !in lines && IBGatewaySectionHeader !in lines ==>
      Rewrite(lines) == lines + MinimalFile
  {
    assert lines[0..] == lines;
    RewriteFromSplitsOffMissing(lines, 0, false, false);
    if LogonSectionHeader !in lines && IBGatewaySectionHeader !in lines {
      RewriteFromCopiesUnmanaged(lines, 0);
    }
  }
}
