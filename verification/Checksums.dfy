// The exact inventory of a release bundle, and the checksum lists that cover it.
module Checksums {
  import opened Options

  datatype Platform = Windows | Linux

  /** A line of a checksum list. */
  datatype Listing = Listing(digest: string, name: string)

  const SEPARATOR := "  "
  const DIGEST_LENGTH: nat := 64

  function ChecksumName(p: Platform): string {
    match p case Windows => "SHA256SUMS-windows" case Linux => "SHA256SUMS-linux"
  }

  function Installer(p: Platform, version: string): string {
    "LM-Atelier-Setup-" + version + match p case Windows => "-windows-x86_64.exe" case Linux => "-linux-x86_64.run"
  }

  function FixedNames(p: Platform): set<string> {
    match p
    case Windows =>
      {"LICENSE-windows.txt", "THIRD_PARTY_NOTICES-windows.md", "release-manifest-windows.json", "sbom-windows.cdx.json",
       "payload-manifest-windows.json", "third-party-licenses-windows.zip", "gitleaks-windows-payload.json",
       "gitleaks-windows-metadata.json", "gitleaks-windows-installer.json", "npm-audit-windows.json",
       "pip-audit-windows.json", "malware-scan-windows.txt", "SHA256SUMS-windows"}
    case Linux =>
      {"LICENSE-linux.txt", "THIRD_PARTY_NOTICES-linux.md", "release-manifest-linux.json", "sbom-linux.cdx.json",
       "payload-manifest-linux.json", "third-party-licenses-linux.tar.gz", "gitleaks-linux-payload.json",
       "gitleaks-linux-metadata.json", "gitleaks-linux-installer.json", "npm-audit-linux.json",
       "pip-audit-linux.json", "malware-scan-linux.txt", "SHA256SUMS-linux"}
  }

  function PlatformFiles(p: Platform, version: string): set<string> {
    {Installer(p, version)} + FixedNames(p)
  }

  // ------------------------------------------------------------ one list

  predicate HexDigit(c: char) {
    '0' <= c <= '9' || 'a' <= c <= 'f'
  }

  predicate IsDigest(text: string) {
    |text| == DIGEST_LENGTH && forall i | 0 <= i < |text| :: HexDigit(text[i])
  }

  /** Where a text ends a line, once its line endings are one character each. */
  predicate LineBreak(c: char) {
    c in {'\n', '\U{0B}', '\U{0C}', '\U{1C}', '\U{1D}', '\U{1E}', '\U{85}', '\U{2028}', '\U{2029}'}
  }

  /** Where the first line ends. */
  function FirstBreak(text: string): (n: nat)
    ensures n <= |text| && (n < |text| ==> LineBreak(text[n])) && forall i :: 0 <= i < n ==> !LineBreak(text[i])
  {
    if text == "" || LineBreak(text[0]) then 0 else 1 + FirstBreak(text[1..])
  }

  /** The lines of a text; a break at the end starts no further line. */
  function Lines(text: string): seq<string>
    decreases |text|
  {
    if text == "" then []
    else
      var n := FirstBreak(text);
      [text[..n]] + if n < |text| then Lines(text[n + 1..]) else []
  }

  predicate SeparatorAt(line: string, i: nat) {
    i + 2 <= |line| && line[i..i + 2] == SEPARATOR
  }

  lemma Shifted(line: string, i: nat)
    requires 0 < i <= |line|
    ensures SeparatorAt(line, i) <==> SeparatorAt(line[1..], i - 1)
  {
  }

  /** Where the separator first stands, or the length of the line. */
  function Separator(line: string): (n: nat)
    ensures n <= |line| && (n < |line| ==> SeparatorAt(line, n))
    ensures forall i :: 0 <= i < n ==> !SeparatorAt(line, i)
  {
    if line == "" || SeparatorAt(line, 0) then 0
    else
      var n := Separator(line[1..]);
      assert forall i :: 0 < i <= |line| ==> (SeparatorAt(line, i) <==> SeparatorAt(line[1..], i - 1)) by {
        forall i | 0 < i <= |line| ensures SeparatorAt(line, i) <==> SeparatorAt(line[1..], i - 1) { Shifted(line, i); }
      }
      1 + n
  }

  /** A line cut at its first separator; none without one or without a digest. */
  function ParseLine(line: string): Option<Listing> {
    var n := Separator(line);
    if n < |line| && IsDigest(line[..n]) then Some(Listing(line[..n], line[n + 2..])) else None
  }

  function Parse(text: string): (parsed: seq<Option<Listing>>)
    ensures |parsed| == |Lines(text)| && forall i :: 0 <= i < |parsed| ==> parsed[i] == ParseLine(Lines(text)[i])
  {
    seq(|Lines(text)|, i requires 0 <= i < |Lines(text)| => ParseLine(Lines(text)[i]))
  }

  function PrintLine(listing: Listing): string {
    listing.digest + SEPARATOR + listing.name
  }

  function Print(listings: seq<Listing>): string {
    if listings == [] then "" else PrintLine(listings[0]) + "\n" + Print(listings[1..])
  }

  predicate Printable(listing: Listing) {
    IsDigest(listing.digest) && forall i | 0 <= i < |listing.name| :: !LineBreak(listing.name[i])
  }

  lemma ParsePrintedLine(listing: Listing)
    requires Printable(listing)
    ensures ParseLine(PrintLine(listing)) == Some(listing)
  {
    var line := PrintLine(listing);
    var d := |listing.digest|;
    assert line[..d] == listing.digest && line[d..d + 2] == SEPARATOR && line[d + 2..] == listing.name;
    forall i | 0 <= i < d ensures !SeparatorAt(line, i) {
      assert HexDigit(listing.digest[i]) && line[i] == listing.digest[i];
      assert i + 2 <= |line| ==> line[i..i + 2][0] == line[i];
    }
    assert SeparatorAt(line, d);
  }

  lemma {:induction false} LinesJoin(line: string, rest: string)
    requires forall i :: 0 <= i < |line| ==> !LineBreak(line[i])
    ensures Lines(line + "\n" + rest) == [line] + Lines(rest)
  {
    var text := line + "\n" + rest;
    assert text[|line|] == '\n';
    var n := FirstBreak(text);
    assert forall i :: 0 <= i < |line| ==> text[i] == line[i];
    assert n == |line|;
    assert text[..n] == line && text[n + 1..] == rest;
  }

  lemma ParseJoin(line: string, rest: string)
    requires forall i :: 0 <= i < |line| ==> !LineBreak(line[i])
    ensures Parse(line + "\n" + rest) == [ParseLine(line)] + Parse(rest)
  {
    hide LineBreak, ParseLine, Lines;
    LinesJoin(line, rest);
  }

  /** Reading a printed list gives back its entries, in any order they were printed. */
  lemma {:induction false} ParsePrinted(listings: seq<Listing>)
    requires forall i :: 0 <= i < |listings| ==> Printable(listings[i])
    ensures |Parse(Print(listings))| == |listings|
    ensures forall i :: 0 <= i < |listings| ==> Parse(Print(listings))[i] == Some(listings[i])
  {
    if listings != [] {
      var line, rest := PrintLine(listings[0]), Print(listings[1..]);
      ParsePrintedLine(listings[0]);
      ParsePrinted(listings[1..]);
      NoBreaks(listings[0]);
      ParseJoin(line, rest);
      hide Parse, ParseLine, Printable, PrintLine;
      assert line + "\n" + rest == Print(listings);
      forall i | 0 < i < |listings| ensures Parse(Print(listings))[i] == Some(listings[i]) {
        assert Parse(rest)[i - 1] == Some(listings[1..][i - 1]);
      }
    }
  }

  lemma NoBreaks(listing: Listing)
    requires Printable(listing)
    ensures forall i :: 0 <= i < |PrintLine(listing)| ==> !LineBreak(PrintLine(listing)[i])
  {
  }

  // ------------------------------------------------------------ checking a list

  /** Every line lists a file of the payload, and no two lines the same. */
  ghost predicate Lists(parsed: seq<Option<Listing>>, payload: set<string>) {
    && (forall i :: 0 <= i < |parsed| ==> parsed[i].Some? && parsed[i].value.name in payload)
    && (forall i, j :: 0 <= i < j < |parsed| && parsed[i].Some? && parsed[j].Some? ==> parsed[i].value.name != parsed[j].value.name)
  }

  ghost predicate ListedWith(parsed: seq<Option<Listing>>, name: string, digest: string) {
    exists i :: 0 <= i < |parsed| && parsed[i] == Some(Listing(digest, name))
  }

  /** The entries are what the list says, name by name. */
  ghost predicate Entered(parsed: seq<Option<Listing>>, entries: map<string, string>) {
    && (forall i :: 0 <= i < |parsed| && parsed[i].Some? ==>
          parsed[i].value.name in entries && entries[parsed[i].value.name] == parsed[i].value.digest)
    && (forall name :: name in entries ==> ListedWith(parsed, name, entries[name]))
  }

  lemma EnteredNext(parsed: seq<Option<Listing>>, entries: map<string, string>, line: Option<Listing>, payload: set<string>)
    requires Lists(parsed, payload) && Entered(parsed, entries)
    ensures Lists(parsed + [line], payload) <==> line.Some? && line.value.name in payload && line.value.name !in entries
    ensures line.Some? && line.value.name !in entries ==> Entered(parsed + [line], entries[line.value.name := line.value.digest])
  {
    var more := parsed + [line];
    assert forall i :: 0 <= i < |parsed| ==> more[i] == parsed[i];
    assert more[|parsed|] == line;
    if line.Some? && line.value.name in entries {
      assert ListedWith(parsed, line.value.name, entries[line.value.name]);
      var j :| 0 <= j < |parsed| && parsed[j] == Some(Listing(entries[line.value.name], line.value.name));
      assert more[j].value.name == more[|parsed|].value.name;
    }
    if line.Some? && line.value.name !in entries {
      var after := entries[line.value.name := line.value.digest];
      forall name | name in after ensures ListedWith(more, name, after[name]) {
        if name in entries {
          assert ListedWith(parsed, name, entries[name]);
          var j :| 0 <= j < |parsed| && parsed[j] == Some(Listing(entries[name], name));
          assert more[j] == Some(Listing(after[name], name));
        } else {
          assert more[|parsed|] == Some(Listing(after[name], name));
        }
      }
    }
  }

  lemma ListsPrefix(parsed: seq<Option<Listing>>, n: nat, payload: set<string>)
    requires n <= |parsed| && Lists(parsed, payload)
    ensures Lists(parsed[..n], payload)
  {
  }

  /** The entries of a list, unless a line of it is wrong. */
  method ReadList(text: string, payload: set<string>) returns (r: Option<map<string, string>>)
    ensures r.Some? <==> Lists(Parse(text), payload)
    ensures r.Some? ==> Entered(Parse(text), r.value)
  {
    hide Parse, Lists, Entered;
    var lines := Lines(text);
    ghost var parsed := Parse(text);
    var entries: map<string, string> := map[];
    assert Lists(parsed[..0], payload) && Entered(parsed[..0], entries) by { NothingRead(payload); assert parsed[..0] == []; }
    for i := 0 to |lines|
      invariant Lists(parsed[..i], payload) && Entered(parsed[..i], entries)
    {
      var line := ParseLine(lines[i]);
      assert parsed[..i + 1] == parsed[..i] + [line];
      EnteredNext(parsed[..i], entries, line, payload);
      if line.None? || line.value.name !in payload || line.value.name in entries {
        if Lists(parsed, payload) { ListsPrefix(parsed, i + 1, payload); }
        return None;
      }
      entries := entries[line.value.name := line.value.digest];
    }
    assert parsed[..|lines|] == parsed;
    return Some(entries);
  }

  lemma NothingRead(payload: set<string>)
    ensures Lists([], payload) && Entered([], map[])
  {
  }

  /** The list names each file of the payload once, with its digest. */
  ghost predicate Covers(text: string, payload: set<string>, files: map<string, string>, sha: string -> string) {
    var parsed := Parse(text);
    && Lists(parsed, payload)
    && forall name :: name in payload ==> name in files && ListedWith(parsed, name, sha(files[name]))
  }

  /** One platform's list against its files. */
  method VerifyChecksums(files: map<string, string>, p: Platform, expected: set<string>, sha: string -> string)
    returns (ok: bool)
    requires ChecksumName(p) in files
    ensures ok <==> Covers(files[ChecksumName(p)], expected - {ChecksumName(p)}, files, sha)
  {
    hide Parse, Lists;
    var payload := expected - {ChecksumName(p)};
    var text := files[ChecksumName(p)];
    ghost var parsed := Parse(text);
    var read := ReadList(text, payload);
    if read.None? { return false; }
    var entries := read.value;
    KeysListed(parsed, entries, payload);
    if entries.Keys != payload {
      MissingName(parsed, entries, payload);
      return false;
    }
    var names := entries.Keys;
    while names != {}
      invariant names <= payload
      invariant forall name :: name in payload - names ==> name in files && entries[name] == sha(files[name])
      decreases |names|
    {
      var name :| name in names;
      if name !in files || sha(files[name]) != entries[name] {
        if name in files { OneDigest(parsed, entries, name, sha(files[name])); }
        return false;
      }
      names := names - {name};
    }
    return true;
  }

  lemma KeysListed(parsed: seq<Option<Listing>>, entries: map<string, string>, payload: set<string>)
    requires Entered(parsed, entries) && Lists(parsed, payload)
    ensures entries.Keys <= payload
  {
  }

  lemma MissingName(parsed: seq<Option<Listing>>, entries: map<string, string>, payload: set<string>)
    requires Entered(parsed, entries) && entries.Keys <= payload && entries.Keys != payload
    ensures exists name :: name in payload && forall digest :: !ListedWith(parsed, name, digest)
  {
  }

  lemma OneDigest(parsed: seq<Option<Listing>>, entries: map<string, string>, name: string, digest: string)
    requires Entered(parsed, entries) && name in entries
    ensures ListedWith(parsed, name, digest) <==> entries[name] == digest
  {
  }

  // ------------------------------------------------------------ the bundle

  function AllFiles(platforms: seq<Platform>, version: string): set<string> {
    if platforms == [] then {} else AllFiles(platforms[..|platforms| - 1], version) + PlatformFiles(platforms[|platforms| - 1], version)
  }

  lemma {:induction false} FilesOfEach(platforms: seq<Platform>, version: string, i: nat)
    requires i < |platforms|
    ensures PlatformFiles(platforms[i], version) <= AllFiles(platforms, version)
  {
    if i < |platforms| - 1 {
      FilesOfEach(platforms[..|platforms| - 1], version, i);
    }
  }

  lemma ListIsAFile(p: Platform, version: string)
    ensures ChecksumName(p) in PlatformFiles(p, version)
  {
  }

  /** What stands under a name: a file with its bytes, a directory, or a link. */
  datatype Object = Plain(bytes: string) | Folder | Link

  predicate Flat(objects: map<string, Object>) {
    forall name | name in objects :: objects[name].Plain?
  }

  function Files(objects: map<string, Object>): (files: map<string, string>)
    requires Flat(objects)
    ensures files.Keys == objects.Keys && forall name :: name in objects ==> objects[name] == Plain(files[name])
  {
    map name | name in objects :: objects[name].bytes
  }

  /** The root is a directory and no link to one, and holds ordinary files alone: exactly
      the platforms' files; every platform's list covers that platform's files, and its
      manifests are as they should be. */
  method VerifyBundle(root: Object, objects: map<string, Object>, platforms: seq<Platform>, version: string,
                      sha: string -> string, described: (map<string, string>, Platform) -> bool)
    returns (ok: bool)
    ensures ok <==> root == Folder && Flat(objects) && objects.Keys == AllFiles(platforms, version)
                    && forall i :: 0 <= i < |platforms| ==>
                         Accepted(Files(objects), platforms[i], version, sha) && described(Files(objects), platforms[i])
  {
    hide PlatformFiles, Covers, Flat;
    if root != Folder { return false; }
    var expected := {};
    for i := 0 to |platforms|
      invariant expected == AllFiles(platforms[..i], version)
    {
      assert platforms[..i + 1][..i] == platforms[..i];
      expected := expected + PlatformFiles(platforms[i], version);
    }
    assert platforms[..|platforms|] == platforms;
    if !Flat(objects) { return false; }
    var files := Files(objects);
    if files.Keys != expected { return false; }
    for i := 0 to |platforms|
      invariant forall j :: 0 <= j < i ==> Accepted(files, platforms[j], version, sha) && described(files, platforms[j])
    {
      FilesOfEach(platforms, version, i);
      ListIsAFile(platforms[i], version);
      var checked := VerifyChecksums(files, platforms[i], PlatformFiles(platforms[i], version), sha);
      if !checked || !described(files, platforms[i]) { return false; }
    }
    return true;
  }

  ghost predicate Accepted(files: map<string, string>, p: Platform, version: string, sha: string -> string) {
    ChecksumName(p) in files
    && Covers(files[ChecksumName(p)], PlatformFiles(p, version) - {ChecksumName(p)}, files, sha)
  }

  /** What a platform's bundle installs, is checked by and is described by is in it. */
  lemma FilesNamed(version: string)
    ensures "LM-Atelier-Setup-" + version + "-windows-x86_64.exe" in PlatformFiles(Windows, version)
    ensures "LM-Atelier-Setup-" + version + "-linux-x86_64.run" in PlatformFiles(Linux, version)
    ensures {"SHA256SUMS-windows", "release-manifest-windows.json", "payload-manifest-windows.json", "sbom-windows.cdx.json"}
            <= PlatformFiles(Windows, version)
    ensures {"SHA256SUMS-linux", "release-manifest-linux.json", "payload-manifest-linux.json", "sbom-linux.cdx.json"}
            <= PlatformFiles(Linux, version)
    ensures ChecksumName(Windows) == "SHA256SUMS-windows" && ChecksumName(Linux) == "SHA256SUMS-linux"
  {
  }

  /** Sixty-four digits of the sixteen, and nothing else, are a digest. */
  lemma DigestMeans(text: string)
    ensures IsDigest(text) <==> |text| == 64 && forall i :: 0 <= i < 64 ==> text[i] in "0123456789abcdef"
  {
    var digits := "0123456789abcdef";
    forall c: char ensures HexDigit(c) <==> c in digits {
      if HexDigit(c) { assert digits[if c <= '9' then c as int - 48 else c as int - 87] == c; }
    }
  }

  // ------------------------------------------------------------ both platforms

  /** Where a name's platform word starts, told by how the name begins. */
  function WordAt(name: string): nat {
    if |name| < 2 then 0
    else
      match name[0]
      case 'L' => 8
      case 'T' => 20
      case 'r' => 17
      case 's' => 5
      case 'p' => if name[1] == 'a' then 17 else 10
      case 't' => 21
      case 'g' => 9
      case 'n' => 10
      case 'm' => 13
      case 'S' => 11
      case _ => 0
  }

  predicate Tells(name: string, c: char) {
    |name| > 1 && name[1] != 'M' && WordAt(name) < |name| && name[WordAt(name)] == c
  }

  lemma WindowsTells(name: string)
    requires name in FixedNames(Windows)
    ensures Tells(name, 'w')
  {
    hide Tells, WordAt;
    SomeWindowsTell(name);
    OtherWindowsTell(name);
  }

  lemma SomeWindowsTell(name: string)
    ensures name in {"LICENSE-windows.txt", "THIRD_PARTY_NOTICES-windows.md", "release-manifest-windows.json",
                     "sbom-windows.cdx.json", "payload-manifest-windows.json", "third-party-licenses-windows.zip"}
            ==> Tells(name, 'w')
  {
  }

  lemma OtherWindowsTell(name: string)
    ensures name in {"gitleaks-windows-payload.json", "gitleaks-windows-metadata.json", "gitleaks-windows-installer.json",
                     "npm-audit-windows.json", "pip-audit-windows.json", "malware-scan-windows.txt", "SHA256SUMS-windows"}
            ==> Tells(name, 'w')
  {
  }

  lemma LinuxTells(name: string)
    requires name in FixedNames(Linux)
    ensures Tells(name, 'l')
  {
    hide Tells, WordAt;
    SomeLinuxTell(name);
    OtherLinuxTell(name);
  }

  lemma SomeLinuxTell(name: string)
    ensures name in {"LICENSE-linux.txt", "THIRD_PARTY_NOTICES-linux.md", "release-manifest-linux.json",
                     "sbom-linux.cdx.json", "payload-manifest-linux.json", "third-party-licenses-linux.tar.gz"}
            ==> Tells(name, 'l')
  {
  }

  lemma OtherLinuxTell(name: string)
    ensures name in {"gitleaks-linux-payload.json", "gitleaks-linux-metadata.json", "gitleaks-linux-installer.json",
                     "npm-audit-linux.json", "pip-audit-linux.json", "malware-scan-linux.txt", "SHA256SUMS-linux"}
            ==> Tells(name, 'l')
  {
  }

  lemma InstallersDiffer(v: string, w: string)
    ensures Installer(Windows, v) != Installer(Linux, w)
    ensures Installer(Windows, v)[1] == 'M' && Installer(Linux, w)[1] == 'M'
  {
    var a, b := Installer(Windows, v), Installer(Linux, w);
    assert a[|a| - 1] == 'e' && b[|b| - 1] == 'n';
  }

  /** The two platforms share no file, whatever the version. */
  lemma NothingShared(version: string)
    ensures PlatformFiles(Windows, version) !! PlatformFiles(Linux, version)
  {
    hide FixedNames, Installer, WordAt;
    InstallersDiffer(version, version);
    forall name | name in PlatformFiles(Windows, version) && name in PlatformFiles(Linux, version) ensures false {
      if name in FixedNames(Windows) { WindowsTells(name); }
      if name in FixedNames(Linux) { LinuxTells(name); }
    }
  }

  function Payload(p: Platform, version: string): set<string> {
    PlatformFiles(p, version) - {ChecksumName(p)}
  }

  /** With both platforms every file but the two lists is covered by exactly one. */
  lemma CoveredOnce(version: string, name: string)
    requires name in AllFiles([Windows, Linux], version)
    ensures name !in {ChecksumName(Windows), ChecksumName(Linux)}
            <==> (name in Payload(Windows, version)) != (name in Payload(Linux, version))
  {
    hide FixedNames, Installer;
    NothingShared(version);
    ListIsAFile(Windows, version);
    ListIsAFile(Linux, version);
    assert [Windows, Linux][..1] == [Windows] && [Windows][..0] == [];
    assert AllFiles([Windows, Linux], version) == PlatformFiles(Windows, version) + PlatformFiles(Linux, version) by {
      assert AllFiles([Windows], version) == AllFiles([], version) + PlatformFiles(Windows, version);
    }
  }

  /** So an accepted bundle of both has every other file's digest listed. */
  lemma EveryFileChecked(files: map<string, string>, version: string, sha: string -> string, name: string)
    requires files.Keys == AllFiles([Windows, Linux], version)
    requires Accepted(files, Windows, version, sha) && Accepted(files, Linux, version, sha)
    requires name in files && name !in {ChecksumName(Windows), ChecksumName(Linux)}
    ensures exists p :: ChecksumName(p) in files && ListedWith(Parse(files[ChecksumName(p)]), name, sha(files[name]))
  {
    hide FixedNames, Installer, Parse;
    CoveredOnce(version, name);
    var p := if name in Payload(Windows, version) then Windows else Linux;
    assert Covers(files[ChecksumName(p)], Payload(p, version), files, sha);
  }
}
