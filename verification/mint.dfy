/** The minting command line: which proofs file holds a token, what it
    prints for a token (its data, its proof list and a gas estimate), and
    which command the arguments select. The file system is a map from file
    name to the parsed `proofs` table of that file. */
module Mint {
  import opened Common

  const CHUNK_SIZE: int := 1000

  // ---------------------------------------------------------------
  // Locating a token
  // ---------------------------------------------------------------

  /** `getChunkForToken`: `Math.floor(tokenId / 1000) + 1`. The divisor is
      positive, so Dafny's division is the floor. */
  function ChunkForToken(tokenId: int): (n: int)
    ensures (n - 1) * CHUNK_SIZE <= tokenId < n * CHUNK_SIZE
    ensures tokenId >= 0 ==> n >= 1
  {
    tokenId / CHUNK_SIZE + 1
  }

  /** The chunk is the one whose thousand token ids contain the token:
      tokens 1000k .. 1000k+999 are in chunk k+1. */
  lemma ChunkRange(k: int, tokenId: int)
    requires k * CHUNK_SIZE <= tokenId < k * CHUNK_SIZE + CHUNK_SIZE
    ensures ChunkForToken(tokenId) == k + 1
  {
  }

  /** A larger token id is never in an earlier chunk. */
  lemma ChunkMonotone(a: int, b: int)
    requires a <= b
    ensures ChunkForToken(a) <= ChunkForToken(b)
  {
  }

  /** The proofs file of chunk `n`. */
  function ChunkFileName(n: int): string {
    "Ooman_merkle_proofs_" + IntToString(n) + ".json"
  }

  /** What a proofs file holds for one token. */
  datatype TokenData = TokenData(tokenId: int, image: string, attributes: string, proof: seq<string>)

  /** The `proofs` table of every proofs file present, by file name. */
  type Files = map<string, map<string, TokenData>>

  /** `loadTokenData`: the token's chunk file must exist; the token is then
      looked up under its decimal id (and may be absent). */
  function LoadTokenData(tokenId: int, files: Files): (r: Result<Option<TokenData>, string>)
    ensures r.Err? <==> ChunkFileName(ChunkForToken(tokenId)) !in files
    ensures r.Err? ==> r.error == "Chunk file not found: " + ChunkFileName(ChunkForToken(tokenId))
    ensures r.Ok? ==>
              var table := files[ChunkFileName(ChunkForToken(tokenId))];
              && (r.value.Some? <==> IntToString(tokenId) in table)
              && (r.value.Some? ==> r.value.value == table[IntToString(tokenId)])
  {
    var name := ChunkFileName(ChunkForToken(tokenId));
    if name !in files then Err("Chunk file not found: " + name)
    else
      var table := files[name];
      var key := IntToString(tokenId);
      if key in table then Ok(Some(table[key])) else Ok(None)
  }

  // ---------------------------------------------------------------
  // Sizes and the gas estimate
  // ---------------------------------------------------------------

  /** The number of bytes of the character in UTF-8. */
  function Utf8Width(c: char): nat {
    if c as int < 0x80 then 1
    else if c as int < 0x800 then 2
    else if c as int < 0x10000 then 3
    else 4
  }

  /** `Buffer.byteLength(s, "utf8")`: every character takes one to four
      bytes, and text of ASCII characters takes one byte per character. */
  function Utf8Length(s: string): (r: nat)
    ensures |s| <= r <= 4 * |s|
    ensures (forall i :: 0 <= i < |s| ==> s[i] as int < 0x80) ==> r == |s|
    decreases |s|
  {
    if s == [] then 0
    else
      var init := s[..|s| - 1];
      assert forall i :: 0 <= i < |init| ==> init[i] == s[i];
      Utf8Length(init) + Utf8Width(s[|s| - 1])
  }

  const BASE_GAS: nat := 50000
  const GAS_PER_BYTE: nat := 20
  const GAS_PER_PROOF_HASH: nat := 2000

  /** The gas estimate: a base cost, a cost per stored byte and a cost per
      proof hash. */
  function GasEstimate(svgBytes: nat, attributesBytes: nat, proofLength: nat): (gas: nat)
    ensures gas >= BASE_GAS
    ensures gas == BASE_GAS <==> svgBytes == 0 && attributesBytes == 0 && proofLength == 0
  {
    BASE_GAS + (svgBytes + attributesBytes) * GAS_PER_BYTE + proofLength * GAS_PER_PROOF_HASH
  }

  /** More bytes or more proof hashes never lower the estimate, and each
      extra byte costs 20 gas and each extra hash 2000. */
  lemma GasMonotone(s: nat, a: nat, p: nat, s': nat, a': nat, p': nat)
    requires s <= s' && a <= a' && p <= p'
    ensures GasEstimate(s, a, p) <= GasEstimate(s', a', p')
    ensures GasEstimate(s', a', p') - GasEstimate(s, a, p)
            == (s' - s + a' - a) * GAS_PER_BYTE + (p' - p) * GAS_PER_PROOF_HASH
  {
  }

  // ---------------------------------------------------------------
  // The proof listing
  // ---------------------------------------------------------------

  /** The indentation and opening quote of a proof line. */
  const PROOF_INDENT: string := "     \""

  /** `lines` lists `proof`: one line per hash, in order, each the hash
      indented and quoted, followed by a comma unless it is the last. */
  predicate ProofListing(lines: seq<string>, proof: seq<string>) {
    && |lines| == |proof|
    && (forall i :: 0 <= i < |proof| ==>
          && |lines[i]| > |PROOF_INDENT| + |proof[i]|
          && lines[i][..|PROOF_INDENT|] == PROOF_INDENT
          && lines[i][|PROOF_INDENT|..|PROOF_INDENT| + |proof[i]|] == proof[i]
          && lines[i][|PROOF_INDENT| + |proof[i]|] == '"')
    && (forall i :: 0 <= i < |proof| ==> (lines[i][|lines[i]| - 1] == ',' <==> i < |proof| - 1))
  }

  /** The lines listing the proof hashes. */
  method ProofLines(proof: seq<string>) returns (lines: seq<string>)
    ensures ProofListing(lines, proof)
  {
    lines := [];
    var i := 0;
    while i < |proof|
      invariant 0 <= i <= |proof|
      invariant |lines| == i
      invariant forall k :: 0 <= k < i ==>
                  && |lines[k]| > |PROOF_INDENT| + |proof[k]|
                  && lines[k][..|PROOF_INDENT|] == PROOF_INDENT
                  && lines[k][|PROOF_INDENT|..|PROOF_INDENT| + |proof[k]|] == proof[k]
                  && lines[k][|PROOF_INDENT| + |proof[k]|] == '"'
      invariant forall k :: 0 <= k < i ==> (lines[k][|lines[k]| - 1] == ',' <==> k < |proof| - 1)
    {
      var p := proof[i];
      var line := PROOF_INDENT + p + "\"" + (if i < |proof| - 1 then "," else "");
      assert line[..|PROOF_INDENT|] == PROOF_INDENT;
      assert line[|PROOF_INDENT|..|PROOF_INDENT| + |p|] == p;
      lines := lines + [line];
      i := i + 1;
    }
  }

  // ---------------------------------------------------------------
  // showMintData
  // ---------------------------------------------------------------

  /** What `showMintData` reports: a failure (a missing chunk file), a token
      absent from its file, or the token's mint data. */
  datatype Report =
    | Failed(message: string)
    | NotFound(tokenId: int)
    | MintData(tokenId: int, svgPreview: string, svgChars: nat, attributesPreview: string,
               proofLines: seq<string>, svgBytes: nat, attributesBytes: nat, proofLength: nat, gas: nat)

  /** `showMintData`: the token's data as the command prints it. */
  method ShowMintData(tokenId: int, files: Files) returns (report: Report)
    ensures LoadTokenData(tokenId, files).Err? <==> report.Failed?
    ensures report.Failed? ==> report.message == LoadTokenData(tokenId, files).error
    ensures report.NotFound? <==> LoadTokenData(tokenId, files) == Ok(None)
    ensures report.MintData? ==>
              var data := LoadTokenData(tokenId, files).value.value;
              && report.tokenId == data.tokenId
              && report.svgPreview <= data.image && |report.svgPreview| == Min(50, |data.image|)
              && report.svgChars == |data.image|
              && report.attributesPreview <= data.attributes
              && |report.attributesPreview| == Min(50, |data.attributes|)
              && ProofListing(report.proofLines, data.proof)
              && report.proofLength == |data.proof|
              && report.svgBytes == Utf8Length(data.image)
              && report.attributesBytes == Utf8Length(data.attributes)
              && report.gas == GasEstimate(report.svgBytes, report.attributesBytes, report.proofLength)
  {
    var loaded := LoadTokenData(tokenId, files);
    if loaded.Err? {
      return Failed(loaded.error);
    }
    if loaded.value.None? {
      return NotFound(tokenId);
    }
    var data := loaded.value.value;
    var lines := ProofLines(data.proof);
    var svgBytes := Utf8Length(data.image);
    var attributesBytes := Utf8Length(data.attributes);
    report := MintData(data.tokenId, Take(data.image, 50), |data.image|, Take(data.attributes, 50),
                       lines, svgBytes, attributesBytes, |data.proof|,
                       GasEstimate(svgBytes, attributesBytes, |data.proof|));
  }

  // ---------------------------------------------------------------
  // The command line
  // ---------------------------------------------------------------

  /** The command the arguments after the script name select. */
  datatype Command = DeploymentInfo | ShowMint(tokenArg: string) | Usage

  function Dispatch(args: seq<string>): (c: Command)
    ensures |args| == 0 ==> c == DeploymentInfo
    ensures |args| >= 2 && args[0] == "mint" && args[1] != "" ==> c == ShowMint(args[1])
    ensures |args| > 0 && args[0] == "info" ==> c == DeploymentInfo
    ensures c == Usage <==>
              |args| > 0 && args[0] != "info" && !(args[0] == "mint" && |args| >= 2 && args[1] != "")
  {
    if |args| == 0 then DeploymentInfo
    else if args[0] == "mint" && |args| >= 2 && args[1] != "" then ShowMint(args[1])
    else if args[0] == "info" then DeploymentInfo
    else Usage
  }
}
