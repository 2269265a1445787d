/** Program-derived identities. A derived address is the hash of its seed
    list (plus the program id); the model identifies it with the seed tuple
    itself, and proves that the seed bytes the hash is taken over determine
    the tuple, so distinct tuples never share a hash input. */
module Derivation {
  import opened Primitives

  /** The domain-separation label, the first seed. */
  datatype Label = StateLabel | WalletLabel

  /** `b"state"` and `b"wallet"`. */
  function LabelBytes(prefix: Label): (r: seq<uint8>)
    ensures |r| == (if prefix == StateLabel then 5 else 6)
  {
    match prefix
    case StateLabel => [0x73, 0x74, 0x61, 0x74, 0x65]
    case WalletLabel => [0x77, 0x61, 0x6c, 0x6c, 0x65, 0x74]
  }

  /** The ordered seed tuple: label, sender, receiver, mint, index, bump. */
  datatype Seeds = Seeds(prefix: Label, sender: Pubkey, receiver: Pubkey, mint: Pubkey, idx: uint64, bump: uint8)

  /** An account address: an ordinary (on-curve) key, or an address derived
      from seeds, which has no private key. */
  datatype Address = Key(key: Pubkey) | Pda(seeds: Seeds)

  /** Seeds of the escrow record `application_state`. */
  function StateSeeds(sender: Pubkey, receiver: Pubkey, mint: Pubkey, idx: uint64, bump: uint8): Seeds {
    Seeds(StateLabel, sender, receiver, mint, idx, bump)
  }

  /** Seeds of the custody holding `escrow_wallet_state`. */
  function WalletSeeds(sender: Pubkey, receiver: Pubkey, mint: Pubkey, idx: uint64, bump: uint8): Seeds {
    Seeds(WalletLabel, sender, receiver, mint, idx, bump)
  }

  /** Whether `a` is derived from the given label and participants, with
      any bump (the framework's `seeds = [...], bump`). */
  predicate DerivedFrom(a: Address, prefix: Label, sender: Pubkey, receiver: Pubkey, mint: Pubkey, idx: uint64) {
    a.Pda? && a.seeds.prefix == prefix && a.seeds.sender == sender && a.seeds.receiver == receiver
    && a.seeds.mint == mint && a.seeds.idx == idx
  }

  function Pow256(n: nat): (r: nat)
    ensures r > 0
  {
    if n == 0 then 1 else 256 * Pow256(n - 1)
  }

  /** The `n` low-order bytes of `x`, least significant first. */
  function LeBytes(x: nat, n: nat): (r: seq<uint8>)
    ensures |r| == n
  {
    if n == 0 then [] else [x % 256] + LeBytes(x / 256, n - 1)
  }

  /** The number a little-endian byte string denotes. */
  function FromLeBytes(bytes: seq<uint8>): nat {
    if bytes == [] then 0 else bytes[0] + 256 * FromLeBytes(bytes[1..])
  }

  lemma {:induction false} LeBytesRoundTrip(x: nat, n: nat)
    requires x < Pow256(n)
    ensures FromLeBytes(LeBytes(x, n)) == x
  {
    if n > 0 {
      assert x / 256 < Pow256(n - 1);
      LeBytesRoundTrip(x / 256, n - 1);
      var r := LeBytes(x, n);
      assert r[0] == x % 256;
      assert r[1..] == LeBytes(x / 256, n - 1);
    }
  }

  /** `idx.to_le_bytes()`. */
  function IdxBytes(idx: uint64): (r: seq<uint8>)
    ensures |r| == 8
  {
    LeBytes(idx, 8)
  }

  lemma IdxBytesInjective(a: uint64, b: uint64)
    requires IdxBytes(a) == IdxBytes(b)
    ensures a == b
  {
    assert Pow256(8) == 0x1_0000_0000_0000_0000;
    LeBytesRoundTrip(a, 8);
    LeBytesRoundTrip(b, 8);
  }

  /** The seed list, in the order both the account constraints and the
      payout signer use: label, sender, receiver, mint, index, bump. */
  function SeedList(s: Seeds): (r: seq<seq<uint8>>)
    ensures |r| == 6
  {
    [LabelBytes(s.prefix), s.sender, s.receiver, s.mint, IdxBytes(s.idx), [s.bump]]
  }

  function Flatten(parts: seq<seq<uint8>>): seq<uint8> {
    if parts == [] then [] else parts[0] + Flatten(parts[1..])
  }

  /** The bytes the address hash is taken over, before the program id. */
  function Preimage(s: Seeds): seq<uint8> {
    Flatten(SeedList(s))
  }

  lemma PreimageLayout(s: Seeds)
    ensures Preimage(s) == LabelBytes(s.prefix) + s.sender + s.receiver + s.mint + IdxBytes(s.idx) + [s.bump]
  {
    var p := SeedList(s);
    assert Flatten(p[5..]) == [s.bump];
    assert Flatten(p[4..]) == IdxBytes(s.idx) + [s.bump];
    assert Flatten(p[3..]) == s.mint + IdxBytes(s.idx) + [s.bump];
    assert Flatten(p[2..]) == s.receiver + s.mint + IdxBytes(s.idx) + [s.bump];
    assert Flatten(p[1..]) == s.sender + s.receiver + s.mint + IdxBytes(s.idx) + [s.bump];
  }

  /** Two concatenations with equally long heads agree part by part. */
  lemma SplitConcat(x: seq<uint8>, y: seq<uint8>, u: seq<uint8>, v: seq<uint8>)
    requires x + y == u + v && |x| == |u|
    ensures x == u && y == v
  {
    assert x == (x + y)[..|x|];
    assert u == (u + v)[..|u|];
    assert y == (x + y)[|x|..];
    assert v == (u + v)[|u|..];
  }

  /** Distinct seed tuples have distinct hash inputs: changing the label,
      any participant, the index or the bump changes the derived address
      (up to collisions of the hash). */
  lemma PreimageInjective(a: Seeds, b: Seeds)
    requires Preimage(a) == Preimage(b)
    ensures a == b
  {
    PreimageLayout(a);
    PreimageLayout(b);
    assert a.prefix == b.prefix by {
      assert |Preimage(a)| == |LabelBytes(a.prefix)| + 105;
      assert |Preimage(b)| == |LabelBytes(b.prefix)| + 105;
    }
    var la := LabelBytes(a.prefix);
    var x4 := la + a.sender + a.receiver + a.mint + IdxBytes(a.idx);
    var y4 := la + b.sender + b.receiver + b.mint + IdxBytes(b.idx);
    SplitConcat(x4, [a.bump], y4, [b.bump]);
    var x3 := la + a.sender + a.receiver + a.mint;
    var y3 := la + b.sender + b.receiver + b.mint;
    SplitConcat(x3, IdxBytes(a.idx), y3, IdxBytes(b.idx));
    IdxBytesInjective(a.idx, b.idx);
    var x2 := la + a.sender + a.receiver;
    var y2 := la + b.sender + b.receiver;
    SplitConcat(x2, a.mint, y2, b.mint);
    SplitConcat(la + a.sender, a.receiver, la + b.sender, b.receiver);
    SplitConcat(la, a.sender, la, b.sender);
  }

  /** The record's and the holding's identities differ only in the label,
      and therefore never coincide. */
  lemma StateAndWalletSeparated(sender: Pubkey, receiver: Pubkey, mint: Pubkey, idx: uint64, bump: uint8, walletBump: uint8)
    ensures StateSeeds(sender, receiver, mint, idx, bump).(prefix := WalletLabel) == WalletSeeds(sender, receiver, mint, idx, bump)
    ensures Preimage(StateSeeds(sender, receiver, mint, idx, bump)) != Preimage(WalletSeeds(sender, receiver, mint, idx, walletBump))
  {
    PreimageLayout(StateSeeds(sender, receiver, mint, idx, bump));
    PreimageLayout(WalletSeeds(sender, receiver, mint, idx, walletBump));
  }
}
