# NFT ownership check: a Dafny model

This project models the two programs that answer the question "does the
wallet behind this 24-word mnemonic own this NFT item on TON?":

- `checkowner/whoowns.mjs`, the checker script (module `WhoOwns`,
  `whoowns.dfy`). It loads its settings from the environment. It counts the
  mnemonic's words and derives the public key. It builds three candidate
  wallets (V4R2 with the default subwallet id, V4R2 with id 0, V3R2) and
  probes each one for deployment. It picks the first deployed candidate, or
  the first candidate when none is deployed. It parses and probes the NFT
  address, reads the owner from `get_nft_data` and reports whether the owner
  and the chosen wallet print the same.
- `server/server.js`, the local relay (module `Server`, `server.dfy`). It
  routes requests and validates the form fields of `POST /api/check`. It
  writes the checker's `.env` file, finds the checker's entry script (one of
  nine file names, else an npm script), runs it, collects its output and
  answers with its exit status.

Two shared modules hold the string and search operations:

- `Text` (`text.dfy`) models the JavaScript string operations both programs
  use:
  - `trim()`, with the ECMAScript white-space and line-terminator set;
  - `split(/\s+/)` followed by `filter(Boolean)`;
  - `join` and `split` on one character;
  - `toLowerCase()`.

  Each operation is proved equal to, or inverse to, an independent reference
  definition. For example, `Words` is the source's pipeline and `Tokens` is
  the reference definition of maximal runs of non-space characters.
- `Seqs` (`seqs.dfy`) holds `FirstTrue`, the first-match rule. Wallet
  selection and the entry-script lookup both use it.

`Wrappers` (`wrappers.dfy`) holds `Option` and `Result`.

Code outside the two programs is represented by oracles: records of total
functions passed in as parameters.

- `Library` stands for the TON libraries: key derivation, wallet-address
  computation, address parsing and printing. A throw is `None`.
- `Chain` stands for the TON Center client: the deployment probe and the
  `get_nft_data` get-method.
- `Disk` stands for the file system: directory and file existence, and what
  `package.json` parses to.
- `spawn` maps a command to the child's exit code and output chunks.
- `parseJson` maps the request text to its fields or a parse error.

`WhoOwns.CheckOwnership` returns the outcome together with the trace of
requests sent to the chain. Its contract therefore covers the order of
requests and the requests that are never made. For example, no request
happens before the word check, and `get_nft_data` is never called for an
NFT that is not deployed.

The owner is read the way the code reads it. The code takes two numbers and
one address, then returns the next address. That is the fourth entry of the
`get_nft_data` stack (TEP-62: init flag, index, collection address, owner
address, content).

`Server.HandleCheck` writes the `.env` content exactly as `writeEnv` builds
it (`Server.EnvContentAsWritten`), the trimmed mnemonic as typed. The
one-line variant `Server.EnvContent` is the corrected half of the finding
below and is not used by the handler.

## Model

| member | source | states |
|---|---|---|
| WhoOwns.LoadSettings | checkowner/whoowns.mjs:6-12 | The endpoint falls back to the testnet URL only when the variable is unset (`??`). An empty API key counts as no key (`||`). An unset mnemonic reads as empty. The NFT address is the first argument unless that is missing, empty or "0"; then it is NFT_ADDRESS. |
| WhoOwns.Setup | checkowner/whoowns.mjs:32-34 | Fails with the word count exactly when the whitespace-separated words are not 24. With 24 words, fails exactly when key derivation throws. Otherwise yields the candidates of the derived key. |
| WhoOwns.Candidates | checkowner/whoowns.mjs:45-52 | Three candidates, in the order V4R2(default), V4R2(id=0), V3R2. Each carries its tag and the address of its wallet kind on workchain 0 for the key. |
| WhoOwns.TagsDistinct | checkowner/whoowns.mjs:48-52 | The three candidate tags differ pairwise. |
| WhoOwns.IsDeployed | checkowner/whoowns.mjs:22 | A candidate counts as deployed exactly when the probe answered true. A probe that throws counts as not deployed. |
| WhoOwns.ListCandidates | checkowner/whoowns.mjs:54-61 | One listing line per candidate, in order: its tag, its printed address and its deployment flag. One probe request per candidate, in the same order. |
| Seqs.FirstTrue | checkowner/whoowns.mjs:65-66 | The smallest index whose flag is set. None exactly when no flag is set. |
| WhoOwns.SelectIndex | checkowner/whoowns.mjs:63-67 | The first deployed candidate is chosen: every earlier one is undeployed. When none is deployed, the first candidate is chosen. |
| WhoOwns.OnlyDeployedIsChosen | checkowner/whoowns.mjs:63-67 | When exactly one candidate is deployed, that one is chosen, whatever its position. |
| WhoOwns.ChooseWallet | checkowner/whoowns.mjs:63-67 | The loop with its early `break` picks the candidate at the selection rule's index, and the pick is one of the candidates. |
| WhoOwns.ParseNftAddress | checkowner/whoowns.mjs:19-21 | Succeeds exactly when the text is present and the library parses it, and then yields the parsed address. Otherwise fails with the offending text. |
| WhoOwns.ReadOwner | checkowner/whoowns.mjs:24-29 | Succeeds exactly when entries 0 and 1 are numbers and entries 2 and 3 are addresses, and then returns entry 3. A failure names the first entry that is missing or of the wrong type; it is "exhausted" exactly when that entry lies past the end of the stack. |
| WhoOwns.TrailingEntriesIgnored | checkowner/whoowns.mjs:26-28 | Entries after the fourth never change the result of the read. |
| WhoOwns.OwnerOf | checkowner/whoowns.mjs:80-85 | A failed get-method call and a non-conforming stack give two distinct errors, and neither yields an owner. A success returns the fourth stack entry. |
| WhoOwns.Match | checkowner/whoowns.mjs:89-93 | The result is a match exactly when an owner is present and its printed form equals the wallet text. An absent owner never matches, even against the placeholder text. |
| WhoOwns.OwnerText | checkowner/whoowns.mjs:89 | The printed owner when there is one, the `(пусто)` placeholder otherwise. |
| WhoOwns.ResolveNft | checkowner/whoowns.mjs:69-85 | An unparsable NFT address fails with that text and sends no request. An undeployed NFT fails after the deployment probe alone. A deployed NFT is probed, then read once, and yields the owner exactly when the read conforms. |
| WhoOwns.CheckCandidates | checkowner/whoowns.mjs:54-99 | The three candidate probes come first, and after them no setup failure can occur. The NFT steps decide the outcome in every case. An unparsable address fails with its text and is never probed. An undeployed NFT fails as undeployed and is never read. A failed read is reported as that failure. A conforming read always reaches the report, which holds the listing, the chosen candidate under the selection rule, the NFT and its owner, the exact request trace, and a match exactly when owner and wallet print the same. |
| WhoOwns.CheckOwnership | checkowner/whoowns.mjs:31-99 | A setup failure makes no request and yields that failure. After a successful setup the run behaves as stated for `CheckCandidates` on the derived candidates. A report is only reached after a successful setup. |
| WhoOwns.ExitCode | checkowner/whoowns.mjs:73-99 | The exit code is 0 exactly after a report, whether or not it matches, and 1 for every failure. |
| Text.Words | checkowner/whoowns.mjs:32 | The `trim`, `split(/\s+/)`, `filter(Boolean)` pipeline yields exactly the maximal runs of non-space characters (`Tokens`). |
| Text.SplitRunsKeepsTokens | checkowner/whoowns.mjs:32 | Splitting on white-space runs and dropping the empty pieces gives the reference words of the string. |
| Text.TrimStartDropsSpace | checkowner/whoowns.mjs:32 | Trimming the front keeps a suffix of the string and drops white space only. |
| Text.TrimEndDropsSpace | checkowner/whoowns.mjs:32 | What trimming the end drops, after the prefix it keeps, is white space only. |
| Text.TrimDropsOnlyEnds | server/server.js:83-87 | `trim()` keeps one infix of the string; everything dropped before and after it is white space. |
| Text.TokensOfTrim | checkowner/whoowns.mjs:32 | Trimming does not change the words. |
| Text.TokensSplitAtSpace | server/server.js:140 | Any white-space character, a line break included, separates words: the words of `a + [c] + b` are those of `a` followed by those of `b`. |
| Text.TokensOfJoin | server/server.js:83 | Used for the corrected mnemonic line of the finding: non-empty, space-free words joined by one white-space character split back into the same words. |
| Text.JoinedWordsAvoid | server/server.js:83 | Used for the corrected mnemonic line of the finding: words joined by a space contain no line break. |
| Text.TrimKeeps | server/server.js:83 | A string that starts and ends with a non-space character is its own trim. |
| Text.SplitOnJoin | server/server.js:89 | Splitting a `join` on its separator gives back the parts, when no part contains the separator. |
| Text.JoinWithEmptyLast | server/server.js:89 | Appending the separator after a join is the same as joining one more, empty, part. |
| Text.JoinWithRegroup | server/server.js:89 | A part holding the separator joins to the same text as its two halves given as separate parts. |
| Text.ToLower | server/server.js:76 | Lower-casing keeps the length and maps each character through the A-Z lower-case mapping. |
| Server.ToncenterUrlForNetwork | server/server.js:75-79 | The testnet URL exactly when the lower-cased network is "testnet". Every other value, the missing and empty network included, gives the mainnet URL. |
| Server.TestnetSpellings | server/server.js:76-77 | The network selects testnet exactly when it has seven characters that lower-case to "testnet": the test does no trimming and accepts no prefix. |
| Server.Validate | server/server.js:133-143 | "Missing fields" exactly when mnemonic, contract or network is absent or empty. "Wrong word count" exactly when all three are present and the mnemonic does not have 24 words. An accepted request has 24 words. |
| Server.EnvValue | server/server.js:83-87 | `?.toString().trim() ?? ''`: a missing field gives the empty text. A present one keeps its words, gets no longer, and neither starts nor ends with white space. |
| Server.EnvContentAsWritten | server/server.js:81-89 | The content is the five template lines `MNEMONIC=`, `NFT_ADDRESS=`, `NETWORK=`, `TONCENTER_ENDPOINT=`, `TONCENTER_API_KEY=` with the trimmed fields and the network's endpoint, joined by '\n' and ended by one. The mnemonic goes in as typed. |
| Server.EnvLinesSpelled | server/server.js:82-88 | The five `KEY=value` lines carry the keys MNEMONIC, NFT_ADDRESS, NETWORK, TONCENTER_ENDPOINT and TONCENTER_API_KEY, in that order. |
| Server.MnemonicText | server/server.js:83 | Corrected half of the finding, not what the source writes: the mnemonic as one line, its words joined by single spaces, holds no line break and has the same words as the trimmed input. |
| Server.ParseLine | checkowner/whoowns.mjs:1 | The `.env` reader skips a line exactly when the line has no '='. |
| Server.ParseKeyValue | checkowner/whoowns.mjs:1 | A line `KEY=value` whose key holds no '=' reads back as that key and that value. |
| Server.ParseLinesAppend | checkowner/whoowns.mjs:1 | The entries read from two blocks of lines are the entries of each block, in order. |
| Server.ParseLinesEntries | server/server.js:82-88 | `KEY=value` lines read back as their pairs, in order. |
| Server.FileReadsBack | server/server.js:82-89 | A file of `KEY=value` lines, joined by '\n' and ended by one, splits into those lines plus a final empty one. It reads back as its pairs, provided no key holds '=' or a line break and no value holds a line break. |
| Server.EnvFileReadsBack | server/server.js:82-89 | The five-key `.env` layout is six pieces split on '\n', the last one empty, and reads back as the five pairs in order. |
| Server.EnvReadsBack | server/server.js:81-91 | Corrected half of the finding, not the source's content: the corrected `.env` content reads back as MNEMONIC, NFT_ADDRESS, NETWORK, TONCENTER_ENDPOINT and TONCENTER_API_KEY, in that order, from six pieces with an empty last one. Its mnemonic has the same words as the request's. |
| Server.EnvAsWrittenReadsBack | server/server.js:81-91 | The file as the source writes it, when the trimmed mnemonic holds no line break, splits into six pieces with an empty last one, and reads back as five entries in key order: the trimmed mnemonic, contract and network, the endpoint of the network, and the trimmed API key. |
| Server.BrokenFirstValue | server/server.js:83-89 | A first value holding a line break breaks the file into six lines. The second line, lacking '=', is skipped, so the first entry keeps only the text before the break. |
| Server.AsWrittenBroken | server/server.js:83-89 | For a trimmed mnemonic with one line break, the file as the source writes it still reads back five entries, and MNEMONIC holds only the first line. |
| Server.MultiLineMnemonicLosesWords | server/server.js:83-89 | A two-line mnemonic passes validation with the words of both lines, but the file as written gives the checker only the first line's words. The corrected file gives it all of them. |
| Server.NpmFallback | server/server.js:60-72 | The result is `check`, else `start`, else `run`, each exactly when `package.json` exists, that script is set and the earlier ones are not. It is nothing exactly when no such script is set or the file is missing. |
| Server.EntryFor | server/server.js:43-73 | A file entry is the first of the nine names that exists, and some file is chosen whenever one exists. When none exists, the entry is the npm fallback. |
| Server.FindCheckownerEntry | server/server.js:43-73 | The loop with its early return computes `EntryFor`. |
| Server.CommandFor | server/server.js:105-114 | A file runs as `node <file>`. A script runs as `npm run <script>`, with `npm.cmd` on Windows. Both run in the checker directory. |
| Server.ConcatAppend | server/server.js:119-120 | Collecting two runs of chunks gives the concatenation of their texts. |
| Server.ConcatLength | server/server.js:119-120 | The collected text is as long as all chunks together: no chunk is lost. |
| Server.Collect | server/server.js:117-120 | The `+=` loop over the data events yields the chunks concatenated in arrival order. |
| Server.RunCheckowner | server/server.js:93-123 | Without an entry: not ok, code 0, no stdout, and the fixed message. Otherwise: the child's code, ok exactly when that code is 0, and the child's collected stdout and stderr. |
| Server.CheckResponse | server/server.js:158-166 | Status 200. `success` and `exitCode` are the run's. The message is the success text exactly when the run is ok, and the failure text otherwise. |
| Server.CheckownerDir | server/server.js:145-150 | The alternate directory is used exactly when `checkowner` is missing and the alternate exists; otherwise `checkowner` is used. |
| Server.ReadRequest | server/server.js:27-41 | The body chunks are collected. An empty body reads as no fields; any other body is what the JSON parser makes of it. |
| Server.HandleCheck | server/server.js:128-170 | A parse error gives 500 with its message. Missing fields give 400, checked before the word count, which also gives 400. The `.env` file is written exactly when the request is accepted, with the content `writeEnv` builds (the trimmed mnemonic as typed) in the checker directory. The answer is then 200 with the result of running the entry script, or the fixed no-entry result. |
| Server.RouteOf | server/server.js:125-176 | OPTIONS is answered first for any URL. `POST /api/check` and `GET /health` match only on the exact method and URL. |
| Server.Serve | server/server.js:125-177 | Preflight, health and not-found answers are fixed and write nothing. `POST /api/check` answers and writes exactly as `HandleCheck` states; no other route writes the file or produces a check result. |

## Left out

- The TON libraries' internals are oracles: BIP-39 key derivation, wallet state-init hashing, address parsing and the canonical address text. The model states which oracle result each step uses, not that the derivation is right.
- The network is a fixed function of the address. Repeated probes of one address give one answer; timing, retries and concurrency are not modelled.
- WhoOwns.CheckOwnership: the client built from the endpoint and API key (`checkowner/whoowns.mjs:6-8`) is the `chain` parameter. The model does not tie the chain to the settings.
- WhoOwns.ReadOwner: a slice that holds no address is a wrong-type failure, because the library's `readAddress` throws on one. The `(пусто)` placeholder of line 89 is therefore never printed after a successful read; `OwnerText` and `Match` still cover it.
- Console output (headers, listings, messages in lines 14-17, 36-44, 60, 74-75, 83, 88-95, 99) is left out; the report carries the values that are printed.
- `process.exit` is the `ExitCode` of the outcome. The redundant `try`/`catch` around the probe at line 58 adds nothing beyond `IsDeployed`.
- Server.ParseLine: the `.env` reader is dotenv reduced to one `KEY=value` pair per line. Quoting, `export`, comments, `KEY: value` lines and dotenv's rule that variables already set in the environment win are not modelled.
- Request fields: only string fields, absent fields and nulls are modelled. Numbers, booleans, arrays and objects in the JSON body are left out, as are non-object bodies.
- Server.HandleCheck: `mkdirSync` and `writeFileSync` are modelled as always succeeding, and `written` records the file content. File-system errors that would give a 500 are left out.
- Server.HandleCheck: `Disk.files` is not tied to `Disk.dirExists`. The relay creates an empty `checkowner` when neither directory exists, so the real run then always gets the no-entry result. The model takes the listing of the chosen directory as given and does not promise that result.
- The child's `error` event, such as a command that cannot be started, and signals are left out. A child that never closes is not modelled; `code` None stands for a close without a code.
- HTTP details are left out: headers, CORS, content type, JSON serialisation of the body, the port and `listen`.
- Text.ToLower: only A-Z is mapped. No other character lower-cases to a letter of "testnet", so the network test is unaffected.
- The web form (`Nft-proccessing/src/App.jsx`) is not part of this model. It only supplies the request fields.

## Findings

| source | as written | input that shows it | evidently intended | confidence | as-written member | corrected member |
|---|---|---|---|---|---|---|
| server/server.js:83-89 | The trimmed mnemonic is written into the `MNEMONIC=` line as typed, line breaks included, though the word check at line 140 counts words across lines. | A mnemonic typed in the form's text area as two lines of 12 words each: the request passes validation, but the checker's `.env` reader sees only the first 12 words, and the second line (no '=') is skipped. The checker then fails the 24-word check. | The mnemonic written as its words joined by single spaces, so that the file holds the same 24 words that were validated. | medium, not executed | Server.EnvContentAsWritten, Server.MultiLineMnemonicLosesWords | Server.EnvContent, Server.EnvReadsBack |
