/**
 * The local relay `server/server.js`: it accepts the form fields on
 * `POST /api/check`, validates them, writes them to the checker's `.env`
 * file and runs the checker script, answering with its exit status.
 *
 * The file system is the `Disk` oracle (which directories and files exist,
 * what `package.json` parses to); the child process is the `spawn` oracle,
 * from the command to its exit code and output chunks.
 */
module Server {
  import opened Wrappers
  import opened Text
  import Seqs

  const TestnetUrl := "https://testnet.toncenter.com/api/v2/jsonRPC"
  const MainnetUrl := "https://toncenter.com/api/v2/jsonRPC"

  // ---------------------------------------------------------------------
  // Network to endpoint

  /** `toncenterUrlForNetwork`: testnet exactly when the lower-cased network
      is "testnet"; everything else, the missing and the empty network
      included, is mainnet. */
  function ToncenterUrlForNetwork(network: Option<string>): (url: string)
    ensures url == TestnetUrl <==> network.Some? && ToLower(network.value) == "testnet"
    ensures url == TestnetUrl || url == MainnetUrl
  {
    var n := ToLower(match network case Some(v) => v case None => "");
    if n == "testnet" then TestnetUrl else MainnetUrl
  }

  /** The test is case-insensitive and nothing else: no trimming, no prefix. */
  lemma {:induction false} TestnetSpellings(v: string)
    ensures ToncenterUrlForNetwork(Some(v)) == TestnetUrl <==>
      |v| == 7 && forall i :: 0 <= i < 7 ==> LowerChar(v[i]) == "testnet"[i]
  {
    var n := ToLower(v);
    if |v| == 7 && forall i :: 0 <= i < 7 ==> LowerChar(v[i]) == "testnet"[i] {
      assert n == "testnet";
    }
  }

  // ---------------------------------------------------------------------
  // The request

  /** The fields of the request body; None is a field that is absent or null. */
  datatype Fields = Fields(mnemonic: Option<string>, contract: Option<string>,
                           network: Option<string>, apiKey: Option<string>)

  /** A body that did not parse carries the parser's message. */
  datatype RequestBody = Malformed(message: string) | Parsed(fields: Fields)

  /** `!!v` on a string field. */
  predicate Truthy(v: Option<string>) {
    v.Some? && v.value != ""
  }

  const MnemonicLength := 24

  datatype Rejection = MissingFields | WrongWordCount

  /** The checks of `/api/check`, in order: the three required fields, then
      the word count. None means the request is accepted. */
  function Validate(f: Fields): (r: Option<Rejection>)
    ensures r == Some(MissingFields) <==>
      !Truthy(f.mnemonic) || !Truthy(f.contract) || !Truthy(f.network)
    ensures r == Some(WrongWordCount) <==>
      Truthy(f.mnemonic) && Truthy(f.contract) && Truthy(f.network) &&
      |Words(f.mnemonic.value)| != MnemonicLength
    ensures r.None? ==> |Words(f.mnemonic.value)| == MnemonicLength
  {
    if !Truthy(f.mnemonic) || !Truthy(f.contract) || !Truthy(f.network) then Some(MissingFields)
    else if |Words(f.mnemonic.value)| != MnemonicLength then Some(WrongWordCount)
    else None
  }

  // ---------------------------------------------------------------------
  // The .env file

  /** `v?.toString().trim() ?? ''`: a missing field is empty, a present one
      loses its surrounding white space and keeps its words. */
  function EnvValue(v: Option<string>): (r: string)
    ensures v.None? ==> r == ""
    ensures v.Some? ==> |r| <= |v.value| && Tokens(r) == Tokens(v.value)
    ensures r == [] || (!IsSpace(r[0]) && !IsSpace(r[|r| - 1]))
    ensures v.Some? ==>
      exists i, j ::
        0 <= i <= j <= |v.value| && r == v.value[i..j] && AllSpace(v.value[..i]) && AllSpace(v.value[j..])
  {
    match v
    case Some(s) => TokensOfTrim(s); TrimDropsOnlyEnds(s); Trim(s)
    case None => ""
  }

  const EnvKeys: seq<string> :=
    ["MNEMONIC", "NFT_ADDRESS", "NETWORK", "TONCENTER_ENDPOINT", "TONCENTER_API_KEY"]

  /** The five values, given the text written for the mnemonic; the endpoint
      always comes from the network. */
  function EnvValues(f: Fields, mnemonicText: string): seq<string> {
    [mnemonicText, EnvValue(f.contract), EnvValue(f.network),
     ToncenterUrlForNetwork(f.network), EnvValue(f.apiKey)]
  }

  /** `KEY=value` lines. */
  function EnvLines(keys: seq<string>, values: seq<string>): (lines: seq<string>)
    requires |keys| == |values|
    ensures |lines| == |keys|
    ensures forall i :: 0 <= i < |keys| ==> lines[i] == keys[i] + "=" + values[i]
  {
    seq(|keys|, i requires 0 <= i < |keys| => keys[i] + "=" + values[i])
  }

  /** `lines.join('\n') + '\n'`. */
  function FileText(lines: seq<string>): string {
    JoinWith(lines, '\n') + "\n"
  }

  /** The content `writeEnv` builds, as written: the trimmed mnemonic is
      written as it came, line breaks inside it included. */
  function EnvContentAsWritten(f: Fields): (c: string)
    ensures c == FileText([ "MNEMONIC=" + EnvValue(f.mnemonic),
                            "NFT_ADDRESS=" + EnvValue(f.contract),
                            "NETWORK=" + EnvValue(f.network),
                            "TONCENTER_ENDPOINT=" + ToncenterUrlForNetwork(f.network),
                            "TONCENTER_API_KEY=" + EnvValue(f.apiKey) ])
  {
    var vs := EnvValues(f, EnvValue(f.mnemonic));
    EnvLinesSpelled(vs);
    FileText(EnvLines(EnvKeys, vs))
  }

  /** The five `.env` lines, keys spelled out. */
  lemma EnvLinesSpelled(vs: seq<string>)
    requires |vs| == 5
    ensures EnvLines(EnvKeys, vs) ==
      [ "MNEMONIC=" + vs[0], "NFT_ADDRESS=" + vs[1], "NETWORK=" + vs[2],
        "TONCENTER_ENDPOINT=" + vs[3], "TONCENTER_API_KEY=" + vs[4] ]
  {
    var ls := EnvLines(EnvKeys, vs);
    assert ls[0] == "MNEMONIC=" + vs[0];
    assert ls[1] == "NFT_ADDRESS=" + vs[1];
    assert ls[2] == "NETWORK=" + vs[2];
    assert ls[3] == "TONCENTER_ENDPOINT=" + vs[3];
    assert ls[4] == "TONCENTER_API_KEY=" + vs[4];
  }

  /** The corrected mnemonic line: its words joined by single spaces. The
      handler does not use it; it writes the trimmed mnemonic as typed. */
  function MnemonicText(m: Option<string>): (t: string)
    ensures Words(t) == Words(EnvValue(m))
    ensures '\n' !in t
  {
    var ws := Words(EnvValue(m));
    JoinedWordsAvoid(ws, ' ', '\n');
    TokensOfJoin(ws, ' ');
    JoinWith(ws, ' ')
  }

  /** The corrected `.env` content, with the mnemonic kept on one line. */
  function EnvContent(f: Fields): string {
    FileText(EnvLines(EnvKeys, EnvValues(f, MnemonicText(f.mnemonic))))
  }

  // How the checker reads the file back: one `KEY=value` pair per line, the
  // key ending at the first '='; lines without '=' are skipped.

  datatype EnvEntry = EnvEntry(key: string, value: string)

  function IndexOf(s: string, c: char): (r: Option<nat>)
    ensures r.Some? ==> r.value < |s| && s[r.value] == c
    ensures r.Some? ==> forall i :: 0 <= i < r.value ==> s[i] != c
    ensures r.None? <==> c !in s
  {
    var flags := seq(|s|, i requires 0 <= i < |s| => s[i] == c);
    assert forall i :: 0 <= i < |s| ==> (flags[i] <==> s[i] == c);
    Seqs.FirstTrue(flags)
  }

  function ParseLine(line: string): (e: Option<EnvEntry>)
    ensures e.None? <==> '=' !in line
  {
    match IndexOf(line, '=')
    case None => None
    case Some(i) => Some(EnvEntry(line[..i], line[i + 1..]))
  }

  function ParseLines(lines: seq<string>): seq<EnvEntry> {
    if lines == [] then []
    else
      (match ParseLine(lines[0]) case Some(e) => [e] case None => []) + ParseLines(lines[1..])
  }

  function ReadEnv(content: string): seq<EnvEntry> {
    ParseLines(SplitOn(content, '\n'))
  }

  lemma {:induction false} ParseLinesAppend(a: seq<string>, b: seq<string>)
    ensures ParseLines(a + b) == ParseLines(a) + ParseLines(b)
  {
    if a == [] {
      assert a + b == b;
    } else {
      assert (a + b)[1..] == a[1..] + b;
      ParseLinesAppend(a[1..], b);
    }
  }

  lemma ParseKeyValue(key: string, value: string)
    requires '=' !in key
    ensures ParseLine(key + "=" + value) == Some(EnvEntry(key, value))
  {
    var line := key + "=" + value;
    assert line[|key|] == '=';
    assert line[..|key|] == key;
    assert line[|key| + 1..] == value;
    assert forall j :: 0 <= j < |key| ==> line[j] == key[j];
  }

  /** A file of `KEY=value` lines reads back as its pairs, when no key holds
      '=' or a line break and no value holds a line break. */
  lemma {:induction false} FileReadsBack(keys: seq<string>, values: seq<string>)
    requires |keys| == |values| >= 1
    requires forall i :: 0 <= i < |keys| ==> '=' !in keys[i] && '\n' !in keys[i] && '\n' !in values[i]
    ensures SplitOn(FileText(EnvLines(keys, values)), '\n') == EnvLines(keys, values) + [[]]
    ensures ReadEnv(FileText(EnvLines(keys, values))) ==
      seq(|keys|, i requires 0 <= i < |keys| => EnvEntry(keys[i], values[i]))
  {
    var lines := EnvLines(keys, values);
    JoinWithEmptyLast(lines, '\n');
    assert FileText(lines) == JoinWith(lines + [[]], '\n');
    SplitOnJoin(lines + [[]], '\n');
    ParseLinesEntries(keys, values);
    ParseLinesAppend(lines, [[]]);
    assert ParseLines([[]]) == [];
  }

  lemma {:induction false} ParseLinesEntries(keys: seq<string>, values: seq<string>)
    requires |keys| == |values|
    requires forall i :: 0 <= i < |keys| ==> '=' !in keys[i]
    ensures ParseLines(EnvLines(keys, values)) ==
      seq(|keys|, i requires 0 <= i < |keys| => EnvEntry(keys[i], values[i]))
  {
    if keys != [] {
      var lines := EnvLines(keys, values);
      ParseKeyValue(keys[0], values[0]);
      assert lines[1..] == EnvLines(keys[1..], values[1..]);
      ParseLinesEntries(keys[1..], values[1..]);
    }
  }

  lemma KeysPlain()
    ensures forall i :: 0 <= i < |EnvKeys| ==> '=' !in EnvKeys[i] && '\n' !in EnvKeys[i]
  {
  }

  lemma UrlsPlain()
    ensures '\n' !in TestnetUrl && '\n' !in MainnetUrl
  {
  }

  /** The four values after the mnemonic hold no line break when the three
      fields hold none. */
  lemma TailPlain(f: Fields, mnemonicText: string)
    requires '\n' !in EnvValue(f.contract) && '\n' !in EnvValue(f.network) && '\n' !in EnvValue(f.apiKey)
    ensures forall i :: 1 <= i < 5 ==> '\n' !in EnvValues(f, mnemonicText)[i]
  {
    UrlsPlain();
    var vs := EnvValues(f, mnemonicText);
    assert vs[1] == EnvValue(f.contract) && vs[2] == EnvValue(f.network) && vs[4] == EnvValue(f.apiKey);
    assert vs[3] == ToncenterUrlForNetwork(f.network);
    assert '\n' !in vs[3];
  }

  lemma ValuesPlain(f: Fields, mnemonicText: string)
    requires '\n' !in mnemonicText
    requires '\n' !in EnvValue(f.contract) && '\n' !in EnvValue(f.network) && '\n' !in EnvValue(f.apiKey)
    ensures forall i :: 0 <= i < 5 ==> '\n' !in EnvValues(f, mnemonicText)[i]
  {
    TailPlain(f, mnemonicText);
  }

  /** Five single-line values make a `.env` file of exactly five lines and a
      final line break, which reads back as the five pairs in order. */
  lemma EnvFileReadsBack(vs: seq<string>)
    requires |vs| == |EnvKeys|
    requires forall i :: 0 <= i < |vs| ==> '\n' !in vs[i]
    ensures |SplitOn(FileText(EnvLines(EnvKeys, vs)), '\n')| == 6
    ensures SplitOn(FileText(EnvLines(EnvKeys, vs)), '\n')[5] == []
    ensures var es := ReadEnv(FileText(EnvLines(EnvKeys, vs)));
      |es| == 5 && forall i :: 0 <= i < 5 ==> es[i] == EnvEntry(EnvKeys[i], vs[i])
  {
    KeysPlain();
    FileReadsBack(EnvKeys, vs);
  }

  /** The corrected content reads back in key order, and its mnemonic entry
      has the words of the request's mnemonic. */
  lemma {:induction false} EnvReadsBack(f: Fields)
    requires '\n' !in EnvValue(f.contract) && '\n' !in EnvValue(f.network) && '\n' !in EnvValue(f.apiKey)
    ensures |SplitOn(EnvContent(f), '\n')| == 6 && SplitOn(EnvContent(f), '\n')[5] == []
    ensures var es := ReadEnv(EnvContent(f));
      && |es| == 5
      && es[0] == EnvEntry(EnvKeys[0], MnemonicText(f.mnemonic))
      && es[1] == EnvEntry(EnvKeys[1], EnvValue(f.contract))
      && es[2] == EnvEntry(EnvKeys[2], EnvValue(f.network))
      && es[3] == EnvEntry(EnvKeys[3], ToncenterUrlForNetwork(f.network))
      && es[4] == EnvEntry(EnvKeys[4], EnvValue(f.apiKey))
    ensures Words(ReadEnv(EnvContent(f))[0].value) == Words(EnvValue(f.mnemonic))
  {
    var t := MnemonicText(f.mnemonic);
    var vs := EnvValues(f, t);
    ValuesPlain(f, t);
    EnvFileReadsBack(vs);
    assert EnvContent(f) == FileText(EnvLines(EnvKeys, vs));
    var es := ReadEnv(EnvContent(f));
    assert es[0] == EnvEntry(EnvKeys[0], vs[0]) && vs[0] == t;
    assert es[1] == EnvEntry(EnvKeys[1], vs[1]);
    assert es[2] == EnvEntry(EnvKeys[2], vs[2]);
    assert es[3] == EnvEntry(EnvKeys[3], vs[3]);
    assert es[4] == EnvEntry(EnvKeys[4], vs[4]);
  }

  /** As written, the file keeps the five-line layout whenever the trimmed
      mnemonic holds no line break. */
  lemma {:induction false} EnvAsWrittenReadsBack(f: Fields)
    requires '\n' !in EnvValue(f.mnemonic)
    requires '\n' !in EnvValue(f.contract) && '\n' !in EnvValue(f.network) && '\n' !in EnvValue(f.apiKey)
    ensures |SplitOn(EnvContentAsWritten(f), '\n')| == 6 && SplitOn(EnvContentAsWritten(f), '\n')[5] == []
    ensures var es := ReadEnv(EnvContentAsWritten(f));
      && |es| == 5
      && es[0] == EnvEntry(EnvKeys[0], EnvValue(f.mnemonic))
      && es[1] == EnvEntry(EnvKeys[1], EnvValue(f.contract))
      && es[2] == EnvEntry(EnvKeys[2], EnvValue(f.network))
      && es[3] == EnvEntry(EnvKeys[3], ToncenterUrlForNetwork(f.network))
      && es[4] == EnvEntry(EnvKeys[4], EnvValue(f.apiKey))
  {
    var vs := EnvValues(f, EnvValue(f.mnemonic));
    ValuesPlain(f, EnvValue(f.mnemonic));
    EnvFileReadsBack(vs);
    assert EnvContentAsWritten(f) == FileText(EnvLines(EnvKeys, vs));
    var es := ReadEnv(EnvContentAsWritten(f));
    assert es[0] == EnvEntry(EnvKeys[0], vs[0]);
    assert es[1] == EnvEntry(EnvKeys[1], vs[1]);
    assert es[2] == EnvEntry(EnvKeys[2], vs[2]);
    assert es[3] == EnvEntry(EnvKeys[3], vs[3]);
    assert es[4] == EnvEntry(EnvKeys[4], vs[4]);
  }

  /** A file whose first value holds one line break reads back as six lines
      of which the second, lacking '=', is skipped: the first entry keeps only
      the text before the break. */
  lemma {:induction false} BrokenFirstValue(a: string, b: string, vs: seq<string>)
    requires |vs| == |EnvKeys| && vs[0] == a + "\n" + b
    requires '\n' !in a && '\n' !in b && '=' !in b
    requires forall i :: 1 <= i < |vs| ==> '\n' !in vs[i]
    ensures var es := ReadEnv(FileText(EnvLines(EnvKeys, vs)));
      |es| == 5 && es[0] == EnvEntry(EnvKeys[0], a)
  {
    var lines := EnvLines(EnvKeys, vs);
    var rest := lines[1..];
    KeysPlain();
    assert rest == EnvLines(EnvKeys[1..], vs[1..]);
    assert lines == [EnvKeys[0] + "=" + (a + "\n" + b)] + rest;
    BrokenLines(EnvKeys[0], a, b, rest);
    BrokenParse(EnvKeys[0], a, b, rest);
    ParseLinesEntries(EnvKeys[1..], vs[1..]);
  }

  /** The line of a value holding one break splits into two lines. */
  lemma BrokenLines(key: string, a: string, b: string, rest: seq<string>)
    requires '\n' !in key && '\n' !in a && '\n' !in b
    requires forall i :: 0 <= i < |rest| ==> '\n' !in rest[i]
    ensures SplitOn(FileText([key + "=" + (a + "\n" + b)] + rest), '\n') ==
      [key + "=" + a, b] + rest + [[]]
  {
    var first := key + "=" + a;
    assert key + "=" + (a + "\n" + b) == first + "\n" + b;
    JoinWithRegroup(first, b, rest, '\n');
    var plain := [first, b] + rest;
    assert forall i :: 0 <= i < |plain| ==> '\n' !in plain[i];
    JoinWithEmptyLast(plain, '\n');
    SplitOnJoin(plain + [[]], '\n');
  }

  /** The second half, lacking '=', is skipped when the lines are read. */
  lemma {:induction false} BrokenParse(key: string, a: string, b: string, rest: seq<string>)
    requires '=' !in key && '=' !in b
    ensures ParseLines([key + "=" + a, b] + rest + [[]]) == [EnvEntry(key, a)] + ParseLines(rest)
  {
    var first := key + "=" + a;
    var lines := [first, b] + rest + [[]];
    var tail := rest + [[]];
    ParseKeyValue(key, a);
    assert ParseLine(first) == Some(EnvEntry(key, a));
    assert lines[0] == first && lines[1..] == [b] + tail;
    assert ParseLines(lines) == [EnvEntry(key, a)] + ParseLines([b] + tail);
    assert ParseLine(b) == None;
    assert ([b] + tail)[1..] == tail;
    assert ParseLines([b] + tail) == ParseLines(tail);
    ParseLinesAppend(rest, [[]]);
    assert ParseLines([[]]) == [];
  }

  lemma AsWrittenBroken(a: string, b: string, f: Fields)
    requires EnvValue(f.mnemonic) == a + "\n" + b
    requires '\n' !in a && '\n' !in b && '=' !in b
    requires '\n' !in EnvValue(f.contract) && '\n' !in EnvValue(f.network) && '\n' !in EnvValue(f.apiKey)
    ensures var es := ReadEnv(EnvContentAsWritten(f));
      |es| == 5 && es[0] == EnvEntry(EnvKeys[0], a)
  {
    var vs := EnvValues(f, a + "\n" + b);
    TailPlain(f, a + "\n" + b);
    BrokenFirstValue(a, b, vs);
  }

  /** A mnemonic typed on two lines passes the word count with the words of
      both lines, but the file as written puts the second line on a line of
      its own, which the checker skips: it reads back the first line's words
      only. The corrected content keeps them all. */
  lemma {:induction false} MultiLineMnemonicLosesWords(a: string, b: string, f: Fields)
    requires f.mnemonic == Some(a + "\n" + b)
    requires a != [] && !IsSpace(a[0]) && '\n' !in a
    requires b != [] && !IsSpace(b[|b| - 1]) && '\n' !in b && '=' !in b
    requires '\n' !in EnvValue(f.contract) && '\n' !in EnvValue(f.network) && '\n' !in EnvValue(f.apiKey)
    ensures Words(f.mnemonic.value) == Words(a) + Words(b)
    ensures var es := ReadEnv(EnvContentAsWritten(f));
      |es| == 5 && es[0] == EnvEntry(EnvKeys[0], a)
    ensures |ReadEnv(EnvContent(f))| == 5
    ensures Words(ReadEnv(EnvContent(f))[0].value) == Words(a) + Words(b)
  {
    var m := a + "\n" + b;
    TrimKeeps(m);
    TokensSplitAtSpace(a, '\n', b);
    assert EnvValue(f.mnemonic) == m;
    EnvReadsBack(f);
    AsWrittenBroken(a, b, f);
  }

  // ---------------------------------------------------------------------
  // The checker's entry script

  const EntryFiles: seq<string> := [
    "whoowns.mjs", "index.mjs", "index.js", "index.cjs", "main.js",
    "check.js", "checkowner.js", "script.js", "dist/index.js"]

  /** A file resolved against the checker directory, or an npm script. */
  datatype EntryScript = ScriptFile(path: string) | NpmScript(name: string)

  /** `package.json` as read: unreadable (bad JSON, or not an object), or its
      `scripts` object if it has one. */
  datatype PackageJson = Unreadable | Package(scripts: Option<map<string, string>>)

  /** `pkg.scripts[name]` is truthy. */
  predicate HasScript(pkg: PackageJson, name: string) {
    pkg.Package? && pkg.scripts.Some? && name in pkg.scripts.value && pkg.scripts.value[name] != ""
  }

  /** The npm fallback: `check`, else `start`, else `run`, else nothing. */
  function NpmFallback(pkgExists: bool, pkg: PackageJson): (e: Option<EntryScript>)
    ensures e == Some(NpmScript("check")) <==> pkgExists && HasScript(pkg, "check")
    ensures e == Some(NpmScript("start")) <==>
      pkgExists && !HasScript(pkg, "check") && HasScript(pkg, "start")
    ensures e == Some(NpmScript("run")) <==>
      pkgExists && !HasScript(pkg, "check") && !HasScript(pkg, "start") && HasScript(pkg, "run")
    ensures e.None? <==>
      !pkgExists || (!HasScript(pkg, "check") && !HasScript(pkg, "start") && !HasScript(pkg, "run"))
  {
    if !pkgExists then None
    else if HasScript(pkg, "check") then Some(NpmScript("check"))
    else if HasScript(pkg, "start") then Some(NpmScript("start"))
    else if HasScript(pkg, "run") then Some(NpmScript("run"))
    else None
  }

  function ExistingFlags(fileExists: string -> bool): (flags: seq<bool>)
    ensures |flags| == |EntryFiles|
    ensures forall i :: 0 <= i < |EntryFiles| ==> flags[i] == fileExists(EntryFiles[i])
  {
    seq(|EntryFiles|, i requires 0 <= i < |EntryFiles| => fileExists(EntryFiles[i]))
  }

  /** The entry the relay runs: the first existing file of the fixed list,
      else the npm fallback. */
  function EntryFor(fileExists: string -> bool, pkg: PackageJson): (e: Option<EntryScript>)
    ensures e.Some? && e.value.ScriptFile? ==>
      exists k :: 0 <= k < |EntryFiles| && e.value.path == EntryFiles[k] &&
        fileExists(EntryFiles[k]) && forall j :: 0 <= j < k ==> !fileExists(EntryFiles[j])
    ensures (exists k :: 0 <= k < |EntryFiles| && fileExists(EntryFiles[k])) ==>
      e.Some? && e.value.ScriptFile?
    ensures (forall k :: 0 <= k < |EntryFiles| ==> !fileExists(EntryFiles[k])) ==>
      e == NpmFallback(fileExists("package.json"), pkg)
  {
    var flags := ExistingFlags(fileExists);
    match Seqs.FirstTrue(flags)
    case Some(k) => Some(ScriptFile(EntryFiles[k]))
    case None => NpmFallback(fileExists("package.json"), pkg)
  }

  /** `findCheckownerEntry`: the loop over the files with an early return,
      then the npm fallback. */
  method FindCheckownerEntry(fileExists: string -> bool, pkg: PackageJson)
    returns (entry: Option<EntryScript>)
    ensures entry == EntryFor(fileExists, pkg)
  {
    ghost var flags := ExistingFlags(fileExists);
    var i := 0;
    while i < |EntryFiles|
      invariant 0 <= i <= |EntryFiles|
      invariant forall j :: 0 <= j < i ==> !flags[j]
    {
      if fileExists(EntryFiles[i]) {
        assert flags[i];
        assert Seqs.FirstTrue(flags) == Some(i);
        return Some(ScriptFile(EntryFiles[i]));
      }
      i := i + 1;
    }
    assert Seqs.NoneTrue(flags);
    entry := NpmFallback(fileExists("package.json"), pkg);
  }

  // ---------------------------------------------------------------------
  // Running the checker

  datatype Program = Node | Npm | NpmCmd

  datatype Command = Command(program: Program, args: seq<string>, cwd: string)

  /** `node <entry>` for a file, `npm run <script>` (`npm.cmd` on Windows)
      for a script, in the checker directory. */
  function CommandFor(entry: EntryScript, dir: string, windows: bool): (c: Command)
    ensures c.cwd == dir
    ensures entry.ScriptFile? ==> c.program == Node && c.args == [entry.path]
    ensures entry.NpmScript? ==>
      c.program == (if windows then NpmCmd else Npm) && c.args == ["run", entry.name]
  {
    match entry
    case ScriptFile(p) => Command(Node, [p], dir)
    case NpmScript(n) => Command(if windows then NpmCmd else Npm, ["run", n], dir)
  }

  /** What the child does: its exit code (None when a signal ended it) and
      the chunks it writes to stdout and stderr. */
  datatype ChildRun = ChildRun(code: Option<int>, stdout: seq<string>, stderr: seq<string>)

  datatype RunResult = RunResult(ok: bool, code: Option<int>, stdout: string, stderr: string)

  const NoEntryMessage :=
    "No entry script found in checkowner. Expected one of index.js/main.js/check.js/checkowner.js/script.js or an npm script \"check\"/\"start\"."

  /** The chunks in arrival order, concatenated. */
  function Concat(chunks: seq<string>): (text: string)
  {
    if chunks == [] then [] else Concat(chunks[..|chunks| - 1]) + chunks[|chunks| - 1]
  }

  lemma {:induction false} ConcatAppend(a: seq<string>, b: seq<string>)
    ensures Concat(a + b) == Concat(a) + Concat(b)
    decreases |b|
  {
    if b == [] {
      assert a + b == a;
    } else {
      var init := b[..|b| - 1];
      assert (a + b)[..|a + b| - 1] == a + init;
      assert (a + b)[|a + b| - 1] == b[|b| - 1];
      ConcatAppend(a, init);
      assert Concat(a + b) == Concat(a + init) + b[|b| - 1];
      assert Concat(b) == Concat(init) + b[|b| - 1];
    }
  }

  /** Every chunk lands in the text, whole and in order. */
  lemma {:induction false} ConcatLength(chunks: seq<string>)
    ensures |Concat(chunks)| == SumLengths(chunks)
    decreases |chunks|
  {
    if chunks != [] {
      ConcatLength(chunks[..|chunks| - 1]);
      SumLengthsSnoc(chunks[..|chunks| - 1], chunks[|chunks| - 1]);
      assert chunks[..|chunks| - 1] + [chunks[|chunks| - 1]] == chunks;
    }
  }

  function SumLengths(chunks: seq<string>): nat {
    if chunks == [] then 0 else |chunks[0]| + SumLengths(chunks[1..])
  }

  lemma {:induction false} SumLengthsSnoc(a: seq<string>, c: string)
    ensures SumLengths(a + [c]) == SumLengths(a) + |c|
  {
    if a != [] {
      assert (a + [c])[1..] == a[1..] + [c];
      SumLengthsSnoc(a[1..], c);
    }
  }

  /** `text += chunk` for each data event. */
  method Collect(chunks: seq<string>) returns (text: string)
    ensures text == Concat(chunks)
  {
    text := "";
    for k := 0 to |chunks|
      invariant text == Concat(chunks[..k])
    {
      assert chunks[..k + 1][..k] == chunks[..k];
      text := text + chunks[k];
    }
    assert chunks[..|chunks|] == chunks;
  }

  /** `runCheckowner`: without an entry, a failure with code 0; otherwise the
      child's code, `ok` exactly when it is 0, and its collected output. */
  method RunCheckowner(dir: string, files: string -> bool, pkg: PackageJson,
                       windows: bool, spawn: Command -> ChildRun)
    returns (r: RunResult)
    ensures EntryFor(files, pkg).None? ==> r == RunResult(false, Some(0), "", NoEntryMessage)
    ensures EntryFor(files, pkg).Some? ==>
      var child := spawn(CommandFor(EntryFor(files, pkg).value, dir, windows));
      && (r.ok <==> child.code == Some(0))
      && r.code == child.code
      && r.stdout == Concat(child.stdout)
      && r.stderr == Concat(child.stderr)
  {
    var entry := FindCheckownerEntry(files, pkg);
    if entry.None? {
      return RunResult(false, Some(0), "", NoEntryMessage);
    }
    var child := spawn(CommandFor(entry.value, dir, windows));
    var stdout := Collect(child.stdout);
    var stderr := Collect(child.stderr);
    r := RunResult(child.code == Some(0), child.code, stdout, stderr);
  }

  // ---------------------------------------------------------------------
  // Responses and routes

  datatype Body =
    | PlainText(text: string)
    | ErrorBody(error: string)
    | StatusBody(status: string)
    | CheckBody(success: bool, exitCode: Option<int>, message: string, stdout: string, stderr: string)

  datatype Response = Response(status: int, body: Body)

  const MissingFieldsMessage := "Missing required fields: mnemonic, contract, network"
  const WordCountMessage := "Mnemonic must be exactly 24 words"
  const SucceededMessage := "Script executed successfully."
  const FailedMessage := "Script did not run or exited with error."

  /** The 200 answer of `/api/check`: success and exit code are the run's,
      the message depends on `ok` alone. */
  function CheckResponse(r: RunResult): (resp: Response)
    ensures resp.status == 200 && resp.body.CheckBody?
    ensures resp.body.success == r.ok && resp.body.exitCode == r.code
    ensures resp.body.stdout == r.stdout && resp.body.stderr == r.stderr
    ensures resp.body.message == SucceededMessage <==> r.ok
    ensures resp.body.message == SucceededMessage || resp.body.message == FailedMessage
  {
    Response(200, CheckBody(r.ok, r.code, if r.ok then SucceededMessage else FailedMessage, r.stdout, r.stderr))
  }

  /** The file system as the relay sees it: which directories exist, which
      files exist in a directory, and what its `package.json` reads as. */
  datatype Disk = Disk(dirExists: string -> bool, files: string -> (string -> bool),
                       package: string -> PackageJson)

  const PrimaryDir := "checkowner"
  const AlternateDir := "Nft-proccessing/checkowner"

  /** `checkowner` next to the server, unless only the alternate exists. */
  function CheckownerDir(dirExists: string -> bool): (d: string)
    ensures d == AlternateDir <==> !dirExists(PrimaryDir) && dirExists(AlternateDir)
    ensures d == PrimaryDir || d == AlternateDir
  {
    if !dirExists(PrimaryDir) && dirExists(AlternateDir) then AlternateDir else PrimaryDir
  }

  /** `parseJson`: the body chunks collected, an empty body read as `{}`. */
  method ReadRequest(chunks: seq<string>, parseJson: string -> RequestBody)
    returns (body: RequestBody)
    ensures Concat(chunks) == "" ==> body == Parsed(Fields(None, None, None, None))
    ensures Concat(chunks) != "" ==> body == parseJson(Concat(chunks))
  {
    var text := Collect(chunks);
    if text == "" {
      return Parsed(Fields(None, None, None, None));
    }
    body := parseJson(text);
  }

  /** What `/api/check` answers and writes for a request. `written` is the
      directory and content of the `.env` file, None when nothing was
      written. */
  predicate HandlesCheck(chunks: seq<string>, parseJson: string -> RequestBody, disk: Disk,
                         windows: bool, spawn: Command -> ChildRun,
                         resp: Response, written: Option<(string, string)>)
  {
    var text := Concat(chunks);
    var body := if text == "" then Parsed(Fields(None, None, None, None)) else parseJson(text);
    && (resp.status == 200 || resp.status == 400 || resp.status == 500)
    && (resp.status == 200 <==> written.Some?)
    // A body the parser rejects gives 500 with its message.
    && (body.Malformed? ==>
          resp == Response(500, ErrorBody(if body.message != "" then body.message else "Internal error")) &&
          written.None?)
    // Missing fields are reported before the word count.
    && (body.Parsed? && Validate(body.fields) == Some(MissingFields) ==>
          resp == Response(400, ErrorBody(MissingFieldsMessage)) && written.None?)
    && (body.Parsed? && Validate(body.fields) == Some(WrongWordCount) ==>
          resp == Response(400, ErrorBody(WordCountMessage)) && written.None?)
    // An accepted request writes the file as `writeEnv` builds it, then
    // answers with the checker's run.
    && (written.Some? <==> body.Parsed? && Validate(body.fields).None?)
    && (body.Parsed? && Validate(body.fields).None? ==>
          var dir := CheckownerDir(disk.dirExists);
          var entry := EntryFor(disk.files(dir), disk.package(dir));
          && written == Some((dir, EnvContentAsWritten(body.fields)))
          && resp.status == 200 && resp.body.CheckBody?
          && (entry.None? ==> resp == CheckResponse(RunResult(false, Some(0), "", NoEntryMessage)))
          && (entry.Some? ==>
                var child := spawn(CommandFor(entry.value, dir, windows));
                resp == CheckResponse(RunResult(child.code == Some(0), child.code,
                                                Concat(child.stdout), Concat(child.stderr)))))
  }

  /** The `/api/check` handler. */
  method HandleCheck(chunks: seq<string>, parseJson: string -> RequestBody, disk: Disk,
                     windows: bool, spawn: Command -> ChildRun)
    returns (resp: Response, written: Option<(string, string)>)
    ensures HandlesCheck(chunks, parseJson, disk, windows, spawn, resp, written)
  {
    var body := ReadRequest(chunks, parseJson);
    if body.Malformed? {
      return Response(500, ErrorBody(if body.message != "" then body.message else "Internal error")), None;
    }
    var f := body.fields;
    if !Truthy(f.mnemonic) || !Truthy(f.contract) || !Truthy(f.network) {
      return Response(400, ErrorBody(MissingFieldsMessage)), None;
    }
    var count := |Words(f.mnemonic.value)|;
    if count != MnemonicLength {
      return Response(400, ErrorBody(WordCountMessage)), None;
    }
    var dir := CheckownerDir(disk.dirExists);
    written := Some((dir, EnvContentAsWritten(f)));
    var result := RunCheckowner(dir, disk.files(dir), disk.package(dir), windows, spawn);
    resp := CheckResponse(result);
  }

  datatype Route = Preflight | CheckRoute | Health | NotFound

  /** Dispatch on method and exact URL, `OPTIONS` first. */
  function RouteOf(verb: string, url: string): (r: Route)
    ensures r == Preflight <==> verb == "OPTIONS"
    ensures r == CheckRoute <==> verb == "POST" && url == "/api/check"
    ensures r == Health <==> verb == "GET" && url == "/health"
  {
    if verb == "OPTIONS" then Preflight
    else if verb == "POST" && url == "/api/check" then CheckRoute
    else if verb == "GET" && url == "/health" then Health
    else NotFound
  }

  /** The request listener. Only `POST /api/check` can write the `.env`
      file or start the checker. */
  method Serve(verb: string, url: string, chunks: seq<string>, parseJson: string -> RequestBody,
               disk: Disk, windows: bool, spawn: Command -> ChildRun)
    returns (resp: Response, written: Option<(string, string)>)
    ensures RouteOf(verb, url) == Preflight ==> resp == Response(200, PlainText("ok")) && written.None?
    ensures RouteOf(verb, url) == Health ==> resp == Response(200, StatusBody("ok")) && written.None?
    ensures RouteOf(verb, url) == NotFound ==> resp == Response(404, ErrorBody("Not found")) && written.None?
    ensures written.Some? ==> RouteOf(verb, url) == CheckRoute
    ensures RouteOf(verb, url) == CheckRoute ==>
      HandlesCheck(chunks, parseJson, disk, windows, spawn, resp, written)
    ensures resp.status == 200 && resp.body.CheckBody? ==> RouteOf(verb, url) == CheckRoute
  {
    match RouteOf(verb, url)
    case Preflight =>
      resp, written := Response(200, PlainText("ok")), None;
    case CheckRoute =>
      resp, written := HandleCheck(chunks, parseJson, disk, windows, spawn);
    case Health =>
      resp, written := Response(200, StatusBody("ok")), None;
    case NotFound =>
      resp, written := Response(404, ErrorBody("Not found")), None;
  }
}
