/** The 32 rate constants of the squash bug / pathogen model.

    The C program keeps them in a process-wide `double parms[32]` that the
    host environment fills once, and names each slot with a `#define`.  Here
    they are an immutable record with one field per slot, plus the mapping
    between the record and the positional slot array. */
module Parameters {

  /** Number of parameter slots the host environment must supply. */
  const SlotCount: nat := 32

  datatype Params = Params(
    d_A: real,   // slot 0: adult death rate
    l: real,     // slot 1: overwintering transition-out rate
    b: real,     // slot 2: fecundity
    K_E: real,   // slot 3: egg carrying capacity
    d_E: real,   // slot 4: egg death rate
    m_E: real,   // slot 5: egg maturation rate
    d_1: real,   // slot 6
    m_1: real,   // slot 7
    d_2: real,   // slot 8
    m_2: real,   // slot 9
    d_3: real,   // slot 10
    m_3: real,   // slot 11
    d_4: real,   // slot 12
    m_4: real,   // slot 13
    d_5: real,   // slot 14
    m_5: real,   // slot 15
    p: real,     // slot 16: share of first-instar maturation that takes the primary route
    d_2o: real,  // slot 17
    m_2o: real,  // slot 18
    d_3o: real,  // slot 19
    m_3o: real,  // slot 20
    d_4o: real,  // slot 21
    m_4o: real,  // slot 22
    d_5o: real,  // slot 23
    m_5o: real,  // slot 24
    d_Ao: real,  // slot 25
    c: real,     // slot 26: back-conversion rate
    B_pb: real,  // slot 27: host exposure rate
    c_o: real,   // slot 28: occluded-route back-conversion scaling
    B_bp: real,  // slot 29: particle production rate
    B_o: real,   // slot 30: occluded-route production scaling
    P0: real     // slot 31: particle pool capacity
  )

  /** Reads the record off the positional slot array, one `#define` per field. */
  function FromSlots(parms: seq<real>): (P: Params)
    requires |parms| == SlotCount
    ensures P.d_A == parms[0] && P.K_E == parms[3] && P.p == parms[16] && P.P0 == parms[31]
  {
    Params(
      parms[0], parms[1], parms[2], parms[3], parms[4], parms[5], parms[6], parms[7],
      parms[8], parms[9], parms[10], parms[11], parms[12], parms[13], parms[14], parms[15],
      parms[16], parms[17], parms[18], parms[19], parms[20], parms[21], parms[22], parms[23],
      parms[24], parms[25], parms[26], parms[27], parms[28], parms[29], parms[30], parms[31])
  }

  /** Lays the record out as the slot array the host environment fills. */
  function Slots(P: Params): (parms: seq<real>)
    ensures |parms| == SlotCount
    ensures parms[1] == P.l && parms[26] == P.c && parms[27] == P.B_pb && parms[29] == P.B_bp
  {
    [P.d_A, P.l, P.b, P.K_E, P.d_E, P.m_E, P.d_1, P.m_1,
     P.d_2, P.m_2, P.d_3, P.m_3, P.d_4, P.m_4, P.d_5, P.m_5,
     P.p, P.d_2o, P.m_2o, P.d_3o, P.m_3o, P.d_4o, P.m_4o, P.d_5o,
     P.m_5o, P.d_Ao, P.c, P.B_pb, P.c_o, P.B_bp, P.B_o, P.P0]
  }

  /** Every record is recovered from its slot array. */
  lemma SlotsRoundTrip(P: Params)
    ensures FromSlots(Slots(P)) == P
  {
  }

  /** Every 32-slot array is recovered from the record read off it: the
      layout is a bijection, no two fields share a slot and no slot is unused. */
  lemma FromSlotsRoundTrip(parms: seq<real>)
    requires |parms| == SlotCount
    ensures Slots(FromSlots(parms)) == parms
  {
    var q := Slots(FromSlots(parms));
    forall i | 0 <= i < SlotCount
      ensures q[i] == parms[i]
    {
    }
  }
}
