/** The mocked NFT registry (api/blockchain.py). The node URL, contract
    address and ABI the constructor accepts are unused by the mock and are
    not modelled. */
module Blockchain {
  import opened Wrappers

  /** The details stored for a token. */
  datatype Nft = Nft(owner: string, uri: string)

  /** The two tokens every registry starts with. */
  const MockedNfts: map<int, Nft> := map[
    1 := Nft("0x1234567890123456789012345678901234567890", "https://example.com/nft/1.json"),
    2 := Nft("0x0987654321098765432109876543210987654321", "https://example.com/nft/2.json")
  ]

  /** `BlockchainManager`: holds the token table in a field. */
  class BlockchainManager {
    var mockedNfts: map<int, Nft>

    /** A new manager holds exactly the two mocked tokens. */
    constructor()
      ensures mockedNfts == MockedNfts
    {
      mockedNfts := MockedNfts;
    }

    /** `get_nft_details`: the stored record when the token is in the table,
        `None` for any other token id; it reads the table and changes
        nothing. */
    function GetNftDetails(tokenId: int): (r: Option<Nft>)
      reads this
      ensures r.Some? <==> tokenId in mockedNfts
      ensures r.Some? ==> r.value == mockedNfts[tokenId]
    {
      if tokenId in mockedNfts then Some(mockedNfts[tokenId]) else None
    }
  }

  /** The initial table holds tokens 1 and 2 only, each with an owner and a
      uri, so token 1 is found and token 999 is not. */
  lemma MockedTokens()
    ensures MockedNfts.Keys == {1, 2}
    ensures forall t :: t in MockedNfts ==> MockedNfts[t].owner != [] && MockedNfts[t].uri != []
    ensures 999 !in MockedNfts
  {
  }

  /** The module's example run: a fresh manager answers token 1 with its
      record and token 3 with `None`. */
  method ExampleUsage() returns (nft1Details: Option<Nft>, nft3Details: Option<Nft>)
    ensures nft1Details == Some(Nft("0x1234567890123456789012345678901234567890",
                                    "https://example.com/nft/1.json"))
    ensures nft3Details == None
  {
    var blockchainManager := new BlockchainManager();
    nft1Details := blockchainManager.GetNftDetails(1);
    nft3Details := blockchainManager.GetNftDetails(3);
  }
}
