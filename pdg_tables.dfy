/** Particle-type tables: `pdg_to_type`, the histogram type number of a PDG
    code, and `PDG_IDS`, the compact code used on the PDG axes of the timing
    histograms. */
module PdgTables {

  /** The table `pdg_to_type` encodes, read backwards: the PDG code that
      each histogram type number 1..40 stands for, and 0 for anything else. */
  function TypeCode(t: int): int
  {
    match t
    case 1 => 2212
    case 2 => 2112
    case 3 => 211
    case 4 => -211
    case 5 => 321
    case 6 => -321
    case 7 => -13
    case 8 => 13
    case 9 => 22
    case 10 => 11
    case 11 => -11
    case 12 => -2212
    case 13 => 111
    case 14 => 1000010020
    case 15 => 1000010030
    case 16 => 1000020030
    case 17 => 1000020040
    case 18 => 14
    case 19 => -14
    case 20 => 12
    case 21 => -12
    case 22 => 130
    case 23 => 310
    case 24 => 311
    case 25 => -311
    case 26 => 3122
    case 27 => -3122
    case 28 => 3222
    case 29 => 3212
    case 30 => 3112
    case 31 => -2112
    case 32 => 3322
    case 33 => 3312
    case 34 => 3334
    case 35 => 5112
    case 36 => 5212
    case 37 => 5222
    case 38 => -3322
    case 39 => -5132
    case 40 => -5332
    case _ => 0
  }

  /** `pdg_to_type`: a chain of tests with a default of 0. Its contract ties
      it to the table: a listed code gets the type number that stands for it,
      an unlisted code gets 0. */
  function PdgToType(pdgId: int): (t: nat)
    ensures t <= 40
    ensures t != 0 ==> TypeCode(t) == pdgId
    ensures t == 0 ==> forall u :: 1 <= u <= 40 ==> TypeCode(u) != pdgId
  {
    if pdgId == 2212 then 1
    else if pdgId == 2112 then 2
    else if pdgId == 211 then 3
    else if pdgId == -211 then 4
    else if pdgId == 321 then 5
    else if pdgId == -321 then 6
    else if pdgId == -13 then 7
    else if pdgId == 13 then 8
    else if pdgId == 22 then 9
    else if pdgId == 11 then 10
    else if pdgId == -11 then 11
    else if pdgId == -2212 then 12
    else if pdgId == 111 then 13
    else if pdgId == 1000010020 then 14
    else if pdgId == 1000010030 then 15
    else if pdgId == 1000020030 then 16
    else if pdgId == 1000020040 then 17
    else if pdgId == 14 then 18
    else if pdgId == -14 then 19
    else if pdgId == 12 then 20
    else if pdgId == -12 then 21
    else if pdgId == 130 then 22
    else if pdgId == 310 then 23
    else if pdgId == 311 then 24
    else if pdgId == -311 then 25
    else if pdgId == 3122 then 26
    else if pdgId == -3122 then 27
    else if pdgId == 3222 then 28
    else if pdgId == 3212 then 29
    else if pdgId == 3112 then 30
    else if pdgId == -2112 then 31
    else if pdgId == 3322 then 32
    else if pdgId == 3312 then 33
    else if pdgId == 3334 then 34
    else if pdgId == 5112 then 35
    else if pdgId == 5212 then 36
    else if pdgId == 5222 then 37
    else if pdgId == -3322 then 38
    else if pdgId == -5132 then 39
    else if pdgId == -5332 then 40
    else 0
  }

  /** Every one of the 40 type numbers is used: the code it stands for is
      mapped back to it. */
  lemma EveryTypeIsUsed(t: int)
    requires 1 <= t <= 40
    ensures PdgToType(TypeCode(t)) == t
  {
  }

  /** No two listed codes share a type. */
  lemma PdgToTypeInjective(a: int, b: int)
    requires PdgToType(a) != 0 && PdgToType(a) == PdgToType(b)
    ensures a == b
  {
    assert a == TypeCode(PdgToType(a)) == b;
  }

  /** A particle and its antiparticle are told apart whenever both are listed,
      e.g. 2212 -> 1 against -2212 -> 12 and 13 -> 8 against -13 -> 7. */
  lemma AntiparticleGetsOtherType(pdgId: int)
    requires pdgId != 0 && PdgToType(pdgId) != 0 && PdgToType(-pdgId) != 0
    ensures PdgToType(pdgId) != PdgToType(-pdgId)
  {
    if PdgToType(pdgId) == PdgToType(-pdgId) {
      PdgToTypeInjective(pdgId, -pdgId);
    }
  }

  /** `PDG_IDS` of the timing driver. */
  const PDG_IDS: map<int, int> := map[
    2112 := 5, 2212 := 4, -2212 := -4, 321 := 3, -321 := -3,
    -211 := -2, 211 := 2, -111 := -1, 111 := 1]

  /** `if pdg in PDG_IDS: pdg = PDG_IDS[pdg]`. */
  function RemapPdg(pdg: int): (r: int)
    ensures pdg in PDG_IDS ==> -5 <= r <= 5 && r != 0
    ensures pdg !in PDG_IDS ==> r == pdg
  {
    if pdg in PDG_IDS then PDG_IDS[pdg] else pdg
  }

  /** Every code of the table lands in [-5, 5], a code and its negation land
      on opposite values, and no two codes of the table share a value. */
  lemma PdgIdsShape()
    ensures forall k :: k in PDG_IDS ==> -5 <= PDG_IDS[k] <= 5
    ensures PDG_IDS[-2212] == -PDG_IDS[2212] && PDG_IDS[-321] == -PDG_IDS[321]
    ensures PDG_IDS[-211] == -PDG_IDS[211] && PDG_IDS[-111] == -PDG_IDS[111]
    ensures forall a, b :: a in PDG_IDS && b in PDG_IDS && PDG_IDS[a] == PDG_IDS[b] ==> a == b
  {
  }

  /** The remap is not injective on all codes: an unlisted code whose value is
      one of the compact codes (a b quark, 5) shares the neutron's bin. */
  lemma RemapCollision()
    ensures RemapPdg(5) == RemapPdg(2112) == 5
  {
  }
}
