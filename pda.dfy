/**
 * Program-derived addresses: the deterministic `(address, bump)` derivation
 * behind Anchor's `seeds = [...]` and `bump` account constraints.
 *
 * The hash of `[tag, seed, [bump]]` with the program id is a free constructor,
 * so two derived addresses are equal only when tag, seed and bump are all
 * equal: collision resistance holds by construction. Whether a candidate point
 * lies on the ed25519 curve (and so might have a private key) is a parameter,
 * `onCurve`, about which nothing is assumed.
 */
module Pda {

  datatype Option<T> = None | Some(value: T)

  type u8 = x: int | 0 <= x < 256

  /** The first bump tried by the canonical search. */
  const MAX_BUMP: u8 := 255

  /** The two seed prefixes of the program: `b"vault"` and `b"state"`. */
  datatype Tag = VaultSeed | StateSeed

  datatype Address =
    | Key(id: nat)                                // the public key of a keypair
    | Derived(tag: Tag, seed: Address, bump: u8)  // the hash of [tag, seed, [bump]]

  /** A transaction signer: only a keypair can sign a top-level instruction. */
  type Wallet = a: Address | a.Key? witness Key(0)

  /**
   * `create_program_address(&[tag, seed, &[bump]], program_id)`: the candidate
   * address, refused when it lies on the curve.
   */
  function CreateProgramAddress(onCurve: Address -> bool, tag: Tag, seed: Address, bump: u8): Option<Address>
  {
    var candidate := Derived(tag, seed, bump);
    if onCurve(candidate) then None else Some(candidate)
  }

  /** Tries the bumps `b, b - 1, ..., 1` in turn and stops at the first off-curve address. */
  function FindFrom(onCurve: Address -> bool, tag: Tag, seed: Address, b: u8): (r: Option<(Address, u8)>)
    ensures r.Some? ==> 1 <= r.value.1 <= b
    ensures r.Some? ==> r.value.0 == Derived(tag, seed, r.value.1) && !onCurve(r.value.0)
    ensures r.Some? ==> forall k: u8 :: r.value.1 < k <= b ==> onCurve(Derived(tag, seed, k))
    ensures r.None? ==> forall k: u8 :: 1 <= k <= b ==> onCurve(Derived(tag, seed, k))
    decreases b
  {
    if b == 0 then None
    else
      match CreateProgramAddress(onCurve, tag, seed, b)
      case Some(a) => Some((a, b))
      case None => FindFrom(onCurve, tag, seed, b - 1)
  }

  /**
   * `find_program_address(&[tag, seed], program_id)`: the address with the
   * canonical bump, the highest bump whose address is off the curve. `None`
   * when every bump from 255 down to 1 lands on the curve.
   */
  function FindProgramAddress(onCurve: Address -> bool, tag: Tag, seed: Address): (r: Option<(Address, u8)>)
    ensures r.Some? ==> r.value.1 >= 1 && r.value.0 == Derived(tag, seed, r.value.1) && !onCurve(r.value.0)
    ensures r.Some? ==> forall k: u8 :: r.value.1 < k ==> onCurve(Derived(tag, seed, k))
    ensures r.None? ==> forall k: u8 :: 1 <= k ==> onCurve(Derived(tag, seed, k))
  {
    FindFrom(onCurve, tag, seed, MAX_BUMP)
  }

  /**
   * The canonical bump is characterised by its two properties: any bump that
   * gives an off-curve address while every higher bump does not is the one the
   * search returns.
   */
  lemma CanonicalBumpIsUnique(onCurve: Address -> bool, tag: Tag, seed: Address, b: u8)
    requires b >= 1 && !onCurve(Derived(tag, seed, b))
    requires forall k: u8 :: b < k ==> onCurve(Derived(tag, seed, k))
    ensures FindProgramAddress(onCurve, tag, seed) == Some((Derived(tag, seed, b), b))
  {
    var r := FindProgramAddress(onCurve, tag, seed);
    assert r.Some?;
  }

  /**
   * What the address constraints with a stored bump (`bump = ...`) recompute
   * agrees with what the search found: re-deriving with the canonical bump
   * gives back the canonical address.
   */
  lemma CreateWithFoundBump(onCurve: Address -> bool, tag: Tag, seed: Address)
    requires FindProgramAddress(onCurve, tag, seed).Some?
    ensures CreateProgramAddress(onCurve, tag, seed, FindProgramAddress(onCurve, tag, seed).value.1)
            == Some(FindProgramAddress(onCurve, tag, seed).value.0)
  {
  }

  /** Derivation is injective: one address comes from one `(tag, seed, bump)` only. */
  lemma DerivationInjective(onCurve: Address -> bool, t1: Tag, s1: Address, b1: u8, t2: Tag, s2: Address, b2: u8)
    requires CreateProgramAddress(onCurve, t1, s1, b1).Some?
    requires CreateProgramAddress(onCurve, t1, s1, b1) == CreateProgramAddress(onCurve, t2, s2, b2)
    ensures t1 == t2 && s1 == s2 && b1 == b2
  {
  }
}
