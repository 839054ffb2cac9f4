/**
 * The checker script `checkowner/whoowns.mjs`: from a 24-word mnemonic it
 * derives three candidate wallet addresses, probes which of them are
 * deployed, picks the wallet, reads the owner of an NFT item through the
 * `get_nft_data` get-method and reports whether the two agree.
 *
 * Key derivation, wallet-address computation, address parsing and printing
 * (the `@ton` packages) are the `Library` oracle; the TON Center client is
 * the `Chain` oracle. Every request the script sends to the chain is recorded
 * in a trace of `Call`s.
 */
module WhoOwns {
  import opened Wrappers
  import opened Text
  import Seqs

  /** The endpoint used when TONCENTER_ENDPOINT is unset. */
  const DefaultEndpoint := "https://testnet.toncenter.com/api/v2/jsonRPC"

  /** The only accepted mnemonic length. */
  const MnemonicLength := 24

  /** What the report prints for an owner that was not read: the Russian
      word for "empty", in parentheses. */
  const NoOwnerText := "(\U{43F}\U{443}\U{441}\U{442}\U{43E})"

  type PublicKey = seq<bv8>

  /** A chain address; its canonical text form is `Library.render`. */
  datatype Address = Address(workchain: int, hash: seq<bv8>)

  /** The wallet contracts tried, in the order they are tried. */
  datatype WalletKind = V4R2Default | V4R2Id0 | V3R2

  const Kinds: seq<WalletKind> := [V4R2Default, V4R2Id0, V3R2]

  function Tag(kind: WalletKind): string {
    match kind
    case V4R2Default => "V4R2(default)"
    case V4R2Id0 => "V4R2(id=0)"
    case V3R2 => "V3R2"
  }

  datatype Candidate = Candidate(tag: string, kind: WalletKind, address: Address)

  /** One line of the candidate listing: tag, address text, deployment flag. */
  datatype Listed = Listed(tag: string, address: string, deployed: bool)

  /** The process environment the script reads (None: the variable is unset). */
  datatype Env = Env(mnemonic: Option<string>, nftAddress: Option<string>,
                     endpoint: Option<string>, apiKey: Option<string>)

  datatype Settings = Settings(endpoint: string, apiKey: Option<string>,
                               mnemonic: string, nftAddress: Option<string>)

  /** The `@ton` library functions the script calls; None marks a throw. */
  datatype Library = Library(
    walletKey: seq<string> -> Option<PublicKey>,
    walletAddress: (WalletKind, int, PublicKey) -> Address,
    parseAddress: string -> Option<Address>,
    render: Address -> string)

  /** The answer of `client.isContractDeployed`: a flag, or a throw. */
  datatype ProbeAnswer = Answered(deployed: bool) | ProbeThrew

  /** A get-method result entry. A slice carries the address it decodes to,
      None when its bits do not form an address. */
  datatype StackEntry = Num(value: int) | Slice(address: Option<Address>) | OtherEntry

  /** The TON Center client; a failed `runMethod` carries its message. */
  datatype Chain = Chain(
    isContractDeployed: Address -> ProbeAnswer,
    runGetNftData: Address -> Result<seq<StackEntry>, string>)

  /** A request sent to the chain. */
  datatype Call = Probe(address: Address) | GetNftData(address: Address)

  /** Why reading the result stack failed, at which entry. */
  datatype StackError = Exhausted(position: nat) | WrongType(position: nat)

  datatype Failure =
    | WrongWordCount(count: nat)
    | KeyDerivationFailed
    | InvalidNftAddress(text: Option<string>)
    | NftNotDeployed(nft: Address)
    | GetMethodFailed(reason: string)
    | NonConformingStack(error: StackError)

  datatype Report = Report(list: seq<Listed>, chosen: Candidate, nft: Address,
                           owner: Address, ownerText: string, walletText: string, matches: bool)

  datatype Outcome = Done(report: Report) | Failed(failure: Failure)

  /** The process exit code: 0 after a report, whether or not it matches;
      1 for every failure, the undeployed NFT included. */
  function ExitCode(outcome: Outcome): (code: int)
    ensures code == 0 <==> outcome.Done?
    ensures code == 0 || code == 1
  {
    if outcome.Done? then 0 else 1
  }

  // ---------------------------------------------------------------------
  // Configuration

  /** The endpoint (`??`: only an unset variable falls back), the API key
      (`||`: an empty key is no key), the mnemonic (unset reads as empty) and
      the NFT address text (the first argument unless it is missing, empty or
      "0", then NFT_ADDRESS). */
  function LoadSettings(env: Env, argv2: Option<string>): (s: Settings)
    ensures s.endpoint == if env.endpoint.Some? then env.endpoint.value else DefaultEndpoint
    ensures s.apiKey.Some? <==> env.apiKey.Some? && env.apiKey.value != ""
    ensures s.apiKey.Some? ==> s.apiKey == env.apiKey
    ensures s.mnemonic == if env.mnemonic.Some? then env.mnemonic.value else ""
    ensures argv2.Some? && argv2.value != "" && argv2.value != "0" ==> s.nftAddress == argv2
    ensures argv2.None? || argv2.value == "" || argv2.value == "0" ==> s.nftAddress == env.nftAddress
  {
    var endpoint := match env.endpoint case Some(e) => e case None => DefaultEndpoint;
    var apiKey := match env.apiKey case Some(k) => (if k != "" then Some(k) else None) case None => None;
    var mnemonic := match env.mnemonic case Some(m) => m case None => "";
    var cliNft := match argv2 case Some(a) => a != "" && a != "0" case None => false;
    Settings(endpoint, apiKey, mnemonic, if cliNft then argv2 else env.nftAddress)
  }

  // ---------------------------------------------------------------------
  // Mnemonic and candidates

  /** The three candidates, derived on workchain 0 from the public key. */
  function Candidates(lib: Library, key: PublicKey): (cs: seq<Candidate>)
    ensures |cs| == |Kinds| == 3
    ensures forall i :: 0 <= i < 3 ==>
      cs[i].kind == Kinds[i] && cs[i].tag == Tag(Kinds[i]) &&
      cs[i].address == lib.walletAddress(Kinds[i], 0, key)
  {
    [ Candidate(Tag(V4R2Default), V4R2Default, lib.walletAddress(V4R2Default, 0, key)),
      Candidate(Tag(V4R2Id0), V4R2Id0, lib.walletAddress(V4R2Id0, 0, key)),
      Candidate(Tag(V3R2), V3R2, lib.walletAddress(V3R2, 0, key)) ]
  }

  /** The candidates carry three different tags. */
  lemma TagsDistinct(lib: Library, key: PublicKey)
    ensures forall i, j :: 0 <= i < j < 3 ==>
      Candidates(lib, key)[i].tag != Candidates(lib, key)[j].tag
  {
    var cs := Candidates(lib, key);
    assert cs[0].tag[1] == '4' && cs[2].tag[1] == '3';
    assert |cs[0].tag| != |cs[1].tag|;
    assert cs[1].tag[1] == '4';
  }

  /** The local steps before any request: count the words, derive the key,
      build the candidates. */
  function Setup(mnemonic: string, lib: Library): (r: Result<seq<Candidate>, Failure>)
    ensures r == Failure(WrongWordCount(|Words(mnemonic)|)) <==> |Words(mnemonic)| != MnemonicLength
    ensures r == Failure(KeyDerivationFailed) <==>
      |Words(mnemonic)| == MnemonicLength && lib.walletKey(Words(mnemonic)).None?
    ensures r.Success? <==>
      |Words(mnemonic)| == MnemonicLength && lib.walletKey(Words(mnemonic)).Some?
    ensures r.Success? ==> r.value == Candidates(lib, lib.walletKey(Words(mnemonic)).value)
  {
    var words := Words(mnemonic);
    if |words| != MnemonicLength then Failure(WrongWordCount(|words|))
    else
      match lib.walletKey(words)
      case None => Failure(KeyDerivationFailed)
      case Some(key) => Success(Candidates(lib, key))
  }

  // ---------------------------------------------------------------------
  // Deployment probes and wallet selection

  /** `isDeployed`: a probe that throws counts as not deployed. */
  function IsDeployed(answer: ProbeAnswer): (deployed: bool)
    ensures deployed <==> answer == Answered(true)
  {
    match answer
    case Answered(d) => d
    case ProbeThrew => false
  }

  /** The listing line for one candidate. */
  function Listing(c: Candidate, lib: Library, chain: Chain): Listed {
    Listed(c.tag, lib.render(c.address), IsDeployed(chain.isContractDeployed(c.address)))
  }

  /** The loop that probes each candidate in order and pushes its line. */
  method ListCandidates(candidates: seq<Candidate>, lib: Library, chain: Chain)
    returns (list: seq<Listed>, calls: seq<Call>)
    ensures |list| == |candidates| && |calls| == |candidates|
    ensures forall i :: 0 <= i < |candidates| ==>
      list[i].tag == candidates[i].tag &&
      list[i].address == lib.render(candidates[i].address) &&
      list[i].deployed == (chain.isContractDeployed(candidates[i].address) == Answered(true))
    ensures forall i :: 0 <= i < |candidates| ==> calls[i] == Probe(candidates[i].address)
  {
    list, calls := [], [];
    for k := 0 to |candidates|
      invariant |list| == k && |calls| == k
      invariant forall i :: 0 <= i < k ==> list[i] == Listing(candidates[i], lib, chain)
      invariant forall i :: 0 <= i < k ==> calls[i] == Probe(candidates[i].address)
    {
      var c := candidates[k];
      var address := lib.render(c.address);
      var deployed := IsDeployed(chain.isContractDeployed(c.address));
      calls := calls + [Probe(c.address)];
      list := list + [Listed(c.tag, address, deployed)];
    }
  }

  function DeployedFlags(list: seq<Listed>): (flags: seq<bool>)
    ensures |flags| == |list|
    ensures forall i :: 0 <= i < |list| ==> flags[i] == list[i].deployed
  {
    seq(|list|, i requires 0 <= i < |list| => list[i].deployed)
  }

  /** The selection rule: the first deployed candidate, else the first one. */
  function SelectIndex(flags: seq<bool>): (k: nat)
    requires |flags| > 0
    ensures k < |flags|
    ensures !Seqs.NoneTrue(flags) ==> flags[k] && forall j :: 0 <= j < k ==> !flags[j]
    ensures Seqs.NoneTrue(flags) ==> k == 0
  {
    match Seqs.FirstTrue(flags)
    case Some(i) => i
    case None => 0
  }

  /** When exactly one candidate is deployed it is chosen, wherever it is. */
  lemma OnlyDeployedIsChosen(flags: seq<bool>, k: nat)
    requires k < |flags| && flags[k]
    requires forall j :: 0 <= j < |flags| && j != k ==> !flags[j]
    ensures SelectIndex(flags) == k
  {
  }

  /** The loop that picks `chosen`: the first deployed candidate, breaking
      out at it; the first candidate when none is deployed. */
  method ChooseWallet(candidates: seq<Candidate>, list: seq<Listed>) returns (chosen: Candidate)
    requires |candidates| > 0 && |list| == |candidates|
    ensures chosen == candidates[SelectIndex(DeployedFlags(list))]
    ensures chosen in candidates
  {
    ghost var flags := DeployedFlags(list);
    chosen := candidates[0];
    var i := 0;
    while i < |candidates|
      invariant 0 <= i <= |candidates|
      invariant forall j :: 0 <= j < i ==> !flags[j]
      invariant chosen == candidates[0]
    {
      if list[i].deployed {
        chosen := candidates[i];
        assert flags[i];
        assert SelectIndex(flags) == i;
        return;
      }
      i := i + 1;
    }
  }

  // ---------------------------------------------------------------------
  // The NFT item

  /** `parseAddr`: a missing or unparsable address is an error. */
  function ParseNftAddress(text: Option<string>, lib: Library): (r: Result<Address, Failure>)
    ensures r.Success? <==> text.Some? && lib.parseAddress(text.value).Some?
    ensures r.Success? ==> Some(r.value) == lib.parseAddress(text.value)
    ensures r.Failure? ==> r.error == InvalidNftAddress(text)
  {
    match text
    case None => Failure(InvalidNftAddress(text))
    case Some(t) =>
      match lib.parseAddress(t)
      case None => Failure(InvalidNftAddress(text))
      case Some(a) => Success(a)
  }

  /** Entry `pos` has the type the reader takes there: numbers at 0 and 1,
      addresses at 2 and 3. */
  predicate SlotFits(stack: seq<StackEntry>, pos: nat) {
    pos < |stack| &&
    if pos < 2 then stack[pos].Num? else stack[pos].Slice? && stack[pos].address.Some?
  }

  /** The prefix of a `get_nft_data` result the script relies on (TEP-62:
      init flag, index, collection address, owner address, ...). */
  predicate ConformingNftData(stack: seq<StackEntry>) {
    SlotFits(stack, 0) && SlotFits(stack, 1) && SlotFits(stack, 2) && SlotFits(stack, 3)
  }

  /** `readBigNumber` at entry `pos`. */
  function ReadNumber(stack: seq<StackEntry>, pos: nat): Result<int, StackError> {
    if pos >= |stack| then Failure(Exhausted(pos))
    else match stack[pos]
      case Num(v) => Success(v)
      case _ => Failure(WrongType(pos))
  }

  /** `readAddress` at entry `pos`. */
  function ReadAddress(stack: seq<StackEntry>, pos: nat): Result<Address, StackError> {
    if pos >= |stack| then Failure(Exhausted(pos))
    else match stack[pos]
      case Slice(Some(a)) => Success(a)
      case _ => Failure(WrongType(pos))
  }

  /** `readOwner` on a result stack: number, number, address, then the
      address returned. It fails at the first entry that is missing or of
      the wrong type. */
  function ReadOwner(stack: seq<StackEntry>): (r: Result<Address, StackError>)
    ensures r.Success? <==> ConformingNftData(stack)
    ensures r.Success? ==> |stack| >= 4 && stack[3] == Slice(Some(r.value))
    ensures r.Failure? ==>
      r.error.position < 4 && !SlotFits(stack, r.error.position) &&
      forall p: nat :: p < r.error.position ==> SlotFits(stack, p)
    ensures r.Failure? ==> (r.error.Exhausted? <==> r.error.position >= |stack|)
  {
    var index :- ReadNumber(stack, 0);
    var itemIndex :- ReadNumber(stack, 1);
    var collection :- ReadAddress(stack, 2);
    ReadAddress(stack, 3)
  }

  /** Entries after the owner are never read. */
  lemma TrailingEntriesIgnored(stack: seq<StackEntry>, rest: seq<StackEntry>)
    requires |stack| >= 4
    ensures ReadOwner(stack + rest) == ReadOwner(stack)
  {
    assert forall p :: 0 <= p < 4 ==> (stack + rest)[p] == stack[p];
  }

  /** The owner read through the chain: a failed get-method call and a
      non-conforming stack are two distinct errors, and neither yields an
      owner. */
  function OwnerOf(reply: Result<seq<StackEntry>, string>): (r: Result<Address, Failure>)
    ensures r.Success? <==> reply.Success? && ConformingNftData(reply.value)
    ensures r.Success? ==> |reply.value| >= 4 && reply.value[3] == Slice(Some(r.value))
    ensures reply.Failure? ==> r == Failure(GetMethodFailed(reply.error))
    ensures reply.Success? && r.Failure? ==>
      r.error.NonConformingStack? && ReadOwner(reply.value) == Failure(r.error.error)
  {
    match reply
    case Failure(reason) => Failure(GetMethodFailed(reason))
    case Success(stack) =>
      match ReadOwner(stack)
      case Success(owner) => Success(owner)
      case Failure(e) => Failure(NonConformingStack(e))
  }

  // ---------------------------------------------------------------------
  // The verdict

  /** The printed owner, or the placeholder when there is none. */
  function OwnerText(owner: Option<Address>, render: Address -> string): (t: string)
    ensures owner.Some? ==> t == render(owner.value)
    ensures owner.None? ==> t == NoOwnerText
  {
    match owner
    case Some(a) => render(a)
    case None => NoOwnerText
  }

  /** `!!owner && ownerStr === mineStr`: an absent owner never matches, not
      even a wallet text equal to the placeholder. */
  function Match(owner: Option<Address>, wallet: string, render: Address -> string): (m: bool)
    ensures m <==> owner.Some? && render(owner.value) == wallet
  {
    owner.Some? && OwnerText(owner, render) == wallet
  }

  /** The probes of the candidate loop, in candidate order. */
  function ProbesOf(cs: seq<Candidate>): (calls: seq<Call>)
    ensures |calls| == |cs|
    ensures forall i :: 0 <= i < |cs| ==> calls[i] == Probe(cs[i].address)
  {
    seq(|cs|, i requires 0 <= i < |cs| => Probe(cs[i].address))
  }

  /** The NFT steps: parse the address, probe it, read its owner. The
      result is the NFT and its owner; the calls are the requests sent. */
  method ResolveNft(text: Option<string>, lib: Library, chain: Chain)
    returns (result: Result<(Address, Address), Failure>, calls: seq<Call>)
    // An unparsable address is never probed.
    ensures ParseNftAddress(text, lib).Failure? ==>
      result == Failure(ParseNftAddress(text, lib).error) && calls == []
    // An undeployed NFT is probed and never read.
    ensures ParseNftAddress(text, lib).Success? ==>
      var nft := ParseNftAddress(text, lib).value;
      !IsDeployed(chain.isContractDeployed(nft)) ==>
        result == Failure(NftNotDeployed(nft)) && calls == [Probe(nft)]
    // A deployed NFT is read once, and the read decides the result.
    ensures ParseNftAddress(text, lib).Success? ==>
      var nft := ParseNftAddress(text, lib).value;
      IsDeployed(chain.isContractDeployed(nft)) ==>
        && calls == [Probe(nft), GetNftData(nft)]
        && var owner := OwnerOf(chain.runGetNftData(nft));
        && (result.Success? <==> owner.Success?)
        && (result.Success? ==> result.value == (nft, owner.value))
        && (result.Failure? ==> result.error == owner.error)
  {
    var parsed := ParseNftAddress(text, lib);
    if parsed.Failure? {
      return Failure(parsed.error), [];
    }
    var nft := parsed.value;
    var nftDeployed := IsDeployed(chain.isContractDeployed(nft));
    calls := [Probe(nft)];
    if !nftDeployed {
      return Failure(NftNotDeployed(nft)), calls;
    }
    calls := calls + [GetNftData(nft)];
    var owner := OwnerOf(chain.runGetNftData(nft));
    if owner.Failure? {
      return Failure(owner.error), calls;
    }
    result := Success((nft, owner.value));
  }

  /** What the script does once the mnemonic has given the candidates `cs`:
      the requests it sends, in order, and the outcome it reaches. */
  predicate RunsAsSpecified(cs: seq<Candidate>, nftText: Option<string>, lib: Library, chain: Chain,
                            outcome: Outcome, calls: seq<Call>)
    requires |cs| == 3
  {
    var parsed := ParseNftAddress(nftText, lib);
    // The three candidate probes come first, whatever follows.
    && |calls| >= 3 && calls[..3] == ProbesOf(cs)
    // After the probes only the NFT steps can fail.
    && (outcome.Failed? ==> !outcome.failure.WrongWordCount? && !outcome.failure.KeyDerivationFailed?)
    // An unparsable NFT address is reported and never probed.
    && (parsed.Failure? ==>
          outcome == Failed(InvalidNftAddress(nftText)) && calls == ProbesOf(cs))
    // An undeployed NFT is reported and never read.
    && (parsed.Success? && !IsDeployed(chain.isContractDeployed(parsed.value)) ==>
          outcome == Failed(NftNotDeployed(parsed.value)) &&
          calls == ProbesOf(cs) + [Probe(parsed.value)])
    // A deployed NFT is read once; a failed read is reported as it is.
    && (parsed.Success? && IsDeployed(chain.isContractDeployed(parsed.value)) ==>
          calls == ProbesOf(cs) + [Probe(parsed.value), GetNftData(parsed.value)] &&
          var owner := OwnerOf(chain.runGetNftData(parsed.value));
          && (owner.Failure? ==> outcome == Failed(owner.error))
          // A conforming read always reaches the report.
          && (owner.Success? ==>
                && outcome.Done?
                && var r := outcome.report;
                && r.nft == parsed.value
                && r.owner == owner.value
                && |r.list| == 3
                && (forall i :: 0 <= i < 3 ==> r.list[i] == Listing(cs[i], lib, chain))
                && r.chosen == cs[SelectIndex(DeployedFlags(r.list))]
                && r.walletText == lib.render(r.chosen.address)
                && r.ownerText == lib.render(r.owner)
                && (r.matches <==> lib.render(r.owner) == lib.render(r.chosen.address))))
  }

  /** From the candidates to the verdict: probe, choose, read the owner. */
  method CheckCandidates(cs: seq<Candidate>, nftText: Option<string>, lib: Library, chain: Chain)
    returns (outcome: Outcome, calls: seq<Call>)
    requires |cs| == 3
    ensures RunsAsSpecified(cs, nftText, lib, chain, outcome, calls)
  {
    var list, probes := ListCandidates(cs, lib, chain);
    assert probes == ProbesOf(cs);
    var chosen := ChooseWallet(cs, list);

    var nftResult, nftCalls := ResolveNft(nftText, lib, chain);
    calls := probes + nftCalls;
    assert calls[..3] == probes;
    if nftResult.Failure? {
      return Failed(nftResult.error), calls;
    }
    var (nft, owner) := nftResult.value;
    var ownerText := OwnerText(Some(owner), lib.render);
    var walletText := lib.render(chosen.address);
    var matches := Match(Some(owner), walletText, lib.render);
    outcome := Done(Report(list, chosen, nft, owner, ownerText, walletText, matches));
  }

  /** The script's main body, from the word count to the verdict. A wrong
      word count or a failed key derivation stops before any request. */
  method CheckOwnership(s: Settings, lib: Library, chain: Chain)
    returns (outcome: Outcome, calls: seq<Call>)
    ensures Setup(s.mnemonic, lib).Failure? ==>
      outcome == Failed(Setup(s.mnemonic, lib).error) && calls == []
    ensures Setup(s.mnemonic, lib).Success? ==>
      RunsAsSpecified(Setup(s.mnemonic, lib).value, s.nftAddress, lib, chain, outcome, calls)
    ensures outcome.Done? ==> Setup(s.mnemonic, lib).Success?
  {
    var setup := Setup(s.mnemonic, lib);
    if setup.Failure? {
      return Failed(setup.error), [];
    }
    outcome, calls := CheckCandidates(setup.value, s.nftAddress, lib, chain);
  }
}
