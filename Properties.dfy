/** What the rate equations promise: rest points, the route split, the
    bookkeeping of exposure and particle production, the population
    balances of each route, the irregularities the program has as written,
    and, for meaningful parameters, rates pointing into the feasible region. */
module Properties {
  import opened Parameters
  import opened Derivatives

  /** Every compartment empty. */
  const Zero: State := State(
    0.0, 0.0, 0.0, 0.0, 0.0, 0.0, 0.0, 0.0, 0.0, 0.0,
    0.0, 0.0, 0.0, 0.0, 0.0, 0.0, 0.0, 0.0, 0.0, 0.0,
    0.0, 0.0, 0.0, 0.0, 0.0, 0.0, 0.0, 0.0)

  /** The empty population is a rest point for every parameter set with a
      nonzero egg capacity, on named compartments and on the state vector. */
  lemma ZeroIsRestPoint(P: Params)
    requires P.K_E != 0.0
    ensures Rates(P, Zero) == Zero
    ensures Derivs(P, ToSeq(Zero)) == ToSeq(Zero)
  {
    StateRoundTrip(Zero);
  }

  // ---------------------------------------------------------------- route split

  /** First-instar maturation `m_1*L1` is split between the two routes in
      the shares `p` and `1 - p`; the two shares add up to exactly the
      maturation part of what L1 loses. */
  lemma RouteSplit(P: Params, s: State)
    ensures var s0 := s.(L1 := 0.0);
      && dL2(P, s) - dL2(P, s0) == P.p * P.m_1 * s.L1
      && dL2o(P, s) - dL2o(P, s0) == (1.0 - P.p) * P.m_1 * s.L1
      && (dL2(P, s) - dL2(P, s0)) + (dL2o(P, s) - dL2o(P, s0)) == P.m_1 * s.L1
      && dL1(P, s0) - dL1(P, s) == P.d_1 * s.L1 + P.m_1 * s.L1
  {
  }

  /** With `p = 1` every first instar takes the primary route, so L2o
      receives nothing from L1; with `p = 0` L2 receives nothing from L1. */
  lemma RouteSplitExtremes(P: Params, s: State, x: real)
    ensures P.p == 1.0 ==> dL2o(P, s.(L1 := x)) == dL2o(P, s)
    ensures P.p == 0.0 ==> dL2(P, s.(L1 := x)) == dL2(P, s)
  {
  }

  // ---------------------------------------------------------------- exposure

  /** Exposure is a transfer.  For each uninfected stage X and its infected
      shadow XI, the mass-action term `B_pb*X*P_I` that X loses, measured
      against the same parameters without exposure, is exactly what XI
      gains; so the rate of X + XI does not depend on `B_pb`.  One lemma per
      stage, primary route first. */
  lemma ExposureL2(P: Params, s: State)
    ensures var Q := P.(B_pb := 0.0);
      dL2(Q, s) - dL2(P, s) == P.B_pb * s.L2 * s.P_I == dL2I(P, s) - dL2I(Q, s)
  {
  }

  lemma ExposureL3(P: Params, s: State)
    ensures var Q := P.(B_pb := 0.0);
      dL3(Q, s) - dL3(P, s) == P.B_pb * s.L3 * s.P_I == dL3I(P, s) - dL3I(Q, s)
  {
  }

  lemma ExposureL4(P: Params, s: State)
    ensures var Q := P.(B_pb := 0.0);
      dL4(Q, s) - dL4(P, s) == P.B_pb * s.L4 * s.P_I == dL4I(P, s) - dL4I(Q, s)
  {
  }

  lemma ExposureL5(P: Params, s: State)
    ensures var Q := P.(B_pb := 0.0);
      dL5(Q, s) - dL5(P, s) == P.B_pb * s.L5 * s.P_I == dL5I(P, s) - dL5I(Q, s)
  {
  }

  lemma ExposureA(P: Params, s: State)
    ensures var Q := P.(B_pb := 0.0);
      dA(Q, s) - dA(P, s) == P.B_pb * s.A * s.P_I == dAI(P, s) - dAI(Q, s)
  {
  }

  lemma ExposureL2o(P: Params, s: State)
    ensures var Q := P.(B_pb := 0.0);
      dL2o(Q, s) - dL2o(P, s) == P.B_pb * s.L2o * s.P_I == dL2oI(P, s) - dL2oI(Q, s)
  {
  }

  lemma ExposureL3o(P: Params, s: State)
    ensures var Q := P.(B_pb := 0.0);
      dL3o(Q, s) - dL3o(P, s) == P.B_pb * s.L3o * s.P_I == dL3oI(P, s) - dL3oI(Q, s)
  {
  }

  lemma ExposureL4o(P: Params, s: State)
    ensures var Q := P.(B_pb := 0.0);
      dL4o(Q, s) - dL4o(P, s) == P.B_pb * s.L4o * s.P_I == dL4oI(P, s) - dL4oI(Q, s)
  {
  }

  lemma ExposureL5o(P: Params, s: State)
    ensures var Q := P.(B_pb := 0.0);
      dL5o(Q, s) - dL5o(P, s) == P.B_pb * s.L5o * s.P_I == dL5oI(P, s) - dL5oI(Q, s)
  {
  }

  lemma ExposureAo(P: Params, s: State)
    ensures var Q := P.(B_pb := 0.0);
      dAo(Q, s) - dAo(P, s) == P.B_pb * s.Ao * s.P_I == dAoI(P, s) - dAoI(Q, s)
  {
  }

  /** Exposure touches nothing else: eggs, first instars, overwintering
      adults and the particle pools do not read `B_pb`. */
  lemma ExposureIsLocal(P: Params, s: State, x: real)
    requires P.K_E != 0.0
    ensures var Q := P.(B_pb := x);
      && dOA(Q, s) == dOA(P, s) && dE(Q, s) == dE(P, s) && dL1(Q, s) == dL1(P, s)
      && dOAI(Q, s) == dOAI(P, s) && dP_I(Q, s) == dP_I(P, s)
      && dApo_PI(Q, s) == dApo_PI(P, s) && dSym_PI(Q, s) == dSym_PI(P, s) && dOA_PI(Q, s) == dOA_PI(P, s)
  {
  }

  /** Exposure is mass action: doubling the free particle pool doubles what
      each first-stage compartment loses to exposure and what its shadow
      gains. */
  lemma ExposureMassAction(P: Params, s: State)
    ensures var Q, d := P.(B_pb := 0.0), s.(P_I := 2.0 * s.P_I);
      && dL2(Q, d) - dL2(P, d) == 2.0 * (dL2(Q, s) - dL2(P, s))
      && dL2I(P, d) - dL2I(Q, d) == 2.0 * (dL2I(P, s) - dL2I(Q, s))
      && dL2o(Q, d) - dL2o(P, d) == 2.0 * (dL2o(Q, s) - dL2o(P, s))
      && dL2oI(P, d) - dL2oI(Q, d) == 2.0 * (dL2oI(P, s) - dL2oI(Q, s))
  {
  }

  // ---------------------------------------------------------------- particle pools

  /** Production stops when the free pool is at capacity: the free pool and
      the three production accumulators all have rate zero. */
  lemma PoolSaturation(P: Params, s: State)
    requires s.P_I == P.P0
    ensures dP_I(P, s) == 0.0 && dApo_PI(P, s) == 0.0 && dSym_PI(P, s) == 0.0 && dOA_PI(P, s) == 0.0
  {
  }

  /** The accumulators do not feed back: no rate reads Apo_PI, Sym_PI or
      OA_PI. */
  lemma AccumulatorsAreWriteOnly(P: Params, s: State, a1: real, a2: real, a3: real)
    requires P.K_E != 0.0
    ensures Rates(P, s.(Apo_PI := a1, Sym_PI := a2, OA_PI := a3)) == Rates(P, s)
  {
    var t := s.(Apo_PI := a1, Sym_PI := a2, OA_PI := a3);
    assert t == State(s.OA, s.E, s.L1, s.L2, s.L3, s.L4, s.L5, s.A, s.L2o, s.L3o,
                      s.L4o, s.L5o, s.Ao, s.L2I, s.L3I, s.L4I, s.L5I, s.AI, s.L2oI, s.L3oI,
                      s.L4oI, s.L5oI, s.AoI, s.P_I, a1, a2, a3, s.OAI);
  }

  // ---------------------------------------------------------------- eggs

  /** Without overwintering adults there is no recruitment, and at capacity
      `E = K_E` recruitment vanishes too: in both cases eggs only die and
      mature. */
  lemma EggRecruitmentVanishes(P: Params, s: State)
    requires P.K_E != 0.0
    ensures s.OA == 0.0 && s.OAI == 0.0 ==> dE(P, s) == -(P.d_E + P.m_E) * s.E
    ensures s.E == P.K_E ==> dE(P, s) == -(P.d_E + P.m_E) * s.E
  {
  }

  /** Recruitment is logistic: with positive fecundity, positive capacity and
      some overwintering adults, eggs are recruited exactly when their
      density is below capacity, and lost to crowding exactly when above. */
  lemma EggRecruitmentLogistic(P: Params, s: State)
    requires P.K_E > 0.0 && P.b > 0.0 && s.OA + s.OAI > 0.0
    ensures var recruited := dE(P, s) + (P.d_E + P.m_E) * s.E;
      && (recruited > 0.0 <==> s.E < P.K_E)
      && (recruited < 0.0 <==> s.E > P.K_E)
  {
    var adults := P.b * 0.5 * (s.OA + s.OAI);
    var room := 1.0 - s.E / P.K_E;
    assert adults > 0.0;
    assert dE(P, s) + (P.d_E + P.m_E) * s.E == adults * room;
    assert room * P.K_E == P.K_E - s.E;
  }

  // ---------------------------------------------------------------- balances

  /** Within one stage, exposure moves individuals from X to its shadow XI
      and back-conversion moves them back, so the joint rate of X + XI is
      what the stage receives by maturation, less death and maturation out,
      each term written per compartment.  The occluded fifth instars receive
      `m_4o*L2oI` and the occluded adults' shadow dies at `d_A`, as written in
      the program. */
  lemma StageBalanceL2(P: Params, s: State)
    ensures dL2(P, s) + dL2I(P, s)
      == P.p * P.m_1 * s.L1
         - P.d_2 * s.L2 - P.d_2 * s.L2I - P.m_2 * s.L2 - P.m_2 * s.L2I
  {
  }

  lemma StageBalanceL3(P: Params, s: State)
    ensures dL3(P, s) + dL3I(P, s)
      == P.m_2 * s.L2 + P.m_2 * s.L2I
         - P.d_3 * s.L3 - P.d_3 * s.L3I - P.m_3 * s.L3 - P.m_3 * s.L3I
  {
  }

  lemma StageBalanceL4(P: Params, s: State)
    ensures dL4(P, s) + dL4I(P, s)
      == P.m_3 * s.L3 + P.m_3 * s.L3I
         - P.d_4 * s.L4 - P.d_4 * s.L4I - P.m_4 * s.L4 - P.m_4 * s.L4I
  {
  }

  lemma StageBalanceL5(P: Params, s: State)
    ensures dL5(P, s) + dL5I(P, s)
      == P.m_4 * s.L4 + P.m_4 * s.L4I
         - P.d_5 * s.L5 - P.d_5 * s.L5I - P.m_5 * s.L5 - P.m_5 * s.L5I
  {
  }

  lemma StageBalanceA(P: Params, s: State)
    ensures dA(P, s) + dAI(P, s)
      == P.m_5 * s.L5 + P.m_5 * s.L5I
         - P.d_A * s.A - P.d_A * s.AI
  {
  }

  lemma StageBalanceL2o(P: Params, s: State)
    ensures dL2o(P, s) + dL2oI(P, s)
      == (1.0 - P.p) * P.m_1 * s.L1
         - P.d_2o * s.L2o - P.d_2o * s.L2oI - P.m_2o * s.L2o - P.m_2o * s.L2oI
  {
  }

  lemma StageBalanceL3o(P: Params, s: State)
    ensures dL3o(P, s) + dL3oI(P, s)
      == P.m_2o * s.L2o + P.m_2o * s.L2oI
         - P.d_3o * s.L3o - P.d_3o * s.L3oI - P.m_3o * s.L3o - P.m_3o * s.L3oI
  {
  }

  lemma StageBalanceL4o(P: Params, s: State)
    ensures dL4o(P, s) + dL4oI(P, s)
      == P.m_3o * s.L3o + P.m_3o * s.L3oI
         - P.d_4o * s.L4o - P.d_4o * s.L4oI - P.m_4o * s.L4o - P.m_4o * s.L4oI
  {
  }

  lemma StageBalanceL5o(P: Params, s: State)
    ensures dL5o(P, s) + dL5oI(P, s)
      == P.m_4o * s.L4o + P.m_4o * s.L2oI
         - P.d_5o * s.L5o - P.d_5o * s.L5oI - P.m_5o * s.L5o - P.m_5o * s.L5oI
  {
  }

  lemma StageBalanceAo(P: Params, s: State)
    ensures dAo(P, s) + dAoI(P, s)
      == P.m_5o * s.L5o + P.m_5o * s.L5oI
         - P.d_Ao * s.Ao - P.d_A * s.AoI
  {
  }

  /** Primary route: maturation between stages, exposure and back-conversion
      only move individuals between the ten primary compartments, so their
      total grows by the primary share of first-instar maturation and shrinks
      by death alone. */
  lemma PrimaryRouteBalance(P: Params, s: State)
    ensures
      dL2(P, s) + dL3(P, s) + dL4(P, s) + dL5(P, s) + dA(P, s)
      + dL2I(P, s) + dL3I(P, s) + dL4I(P, s) + dL5I(P, s) + dAI(P, s)
      == P.p * P.m_1 * s.L1
         - P.d_2 * s.L2 - P.d_2 * s.L2I - P.d_3 * s.L3 - P.d_3 * s.L3I
         - P.d_4 * s.L4 - P.d_4 * s.L4I - P.d_5 * s.L5 - P.d_5 * s.L5I
         - P.d_A * s.A - P.d_A * s.AI
  {
    StageBalanceL2(P, s); StageBalanceL3(P, s); StageBalanceL4(P, s);
    StageBalanceL5(P, s); StageBalanceA(P, s);
  }

  /** Occluded route, as the program has it: the same balance as the primary
      route except for two terms.  Infected fifth instars are fed from
      infected second instars (`m_4o*L2oI`) while infected fourth instars
      lose `m_4o*L4oI` to nobody, and infected occluded adults die at the
      primary adult rate `d_A` rather than `d_Ao`.  The total is therefore not
      conserved unless `m_4o*L2oI - m_4o*L4oI` is zero. */
  lemma OccludedRouteBalance(P: Params, s: State)
    ensures
      dL2o(P, s) + dL3o(P, s) + dL4o(P, s) + dL5o(P, s) + dAo(P, s)
      + dL2oI(P, s) + dL3oI(P, s) + dL4oI(P, s) + dL5oI(P, s) + dAoI(P, s)
      == (1.0 - P.p) * P.m_1 * s.L1
         - P.d_2o * s.L2o - P.d_2o * s.L2oI - P.d_3o * s.L3o - P.d_3o * s.L3oI
         - P.d_4o * s.L4o - P.d_4o * s.L4oI - P.d_5o * s.L5o - P.d_5o * s.L5oI
         - P.d_Ao * s.Ao - P.d_A * s.AoI
         + P.m_4o * s.L2oI - P.m_4o * s.L4oI
  {
    StageBalanceL2o(P, s); StageBalanceL3o(P, s); StageBalanceL4o(P, s);
    StageBalanceL5o(P, s); StageBalanceAo(P, s);
  }

  // ---------------------------------------------------------------- irregularities

  /** Infected overwintering adults have no inflow: their rate is their own
      decay `-(d_A + l + c)*OAI` and reads no other compartment, so OAI = 0
      stays 0 whatever the rest of the state. */
  lemma OverwinteringInfectedIsClosed(P: Params, s: State, s': State)
    requires s.OAI == s'.OAI
    ensures dOAI(P, s) == dOAI(P, s') == -(P.d_A + P.l + P.c) * s.OAI
    ensures s.OAI == 0.0 ==> dOAI(P, s) == 0.0
  {
  }

  /** Infected fifth instars on the occluded route take their maturation
      inflow from infected second instars: their rate does not read L4oI,
      and grows by `m_4o` per unit of L2oI. */
  lemma OccludedFifthInstarInflow(P: Params, s: State, x: real, h: real)
    ensures dL5oI(P, s.(L4oI := x)) == dL5oI(P, s)
    ensures dL5oI(P, s.(L2oI := s.L2oI + h)) == dL5oI(P, s) + P.m_4o * h
  {
  }

  /** Because of that inflow, infected occluded fifth instars appear where
      there are no infected fourth instars and nothing of their own stage:
      with any positive `m_4o` some state has L4oI, L5oI and L5o all empty
      and L5oI growing. */
  lemma OccludedFifthInstarsFromNowhere(P: Params)
    requires P.m_4o > 0.0
    ensures exists s: State :: s.L4oI == 0.0 && s.L5oI == 0.0 && s.L5o == 0.0 && dL5oI(P, s) > 0.0
  {
    var w := Zero.(L2oI := 1.0);
    assert dL5oI(P, w) == P.m_4o;
  }

  /** Infected occluded adults die at `d_A`: their rate does not read `d_Ao`,
      and falls by `h*AoI` when `d_A` grows by `h`. */
  lemma OccludedInfectedAdultDeath(P: Params, s: State, x: real, h: real)
    ensures dAoI(P.(d_Ao := x), s) == dAoI(P, s)
    ensures dAoI(P.(d_A := P.d_A + h), s) == dAoI(P, s) - h * s.AoI
  {
  }

  /** So whenever the two adult death rates differ, some state has an AoI
      rate other than the one the occluded adults' own rate `d_Ao` would
      give. */
  lemma OccludedInfectedAdultsMissDAo(P: Params)
    requires P.d_A != P.d_Ao
    ensures exists s: State :: dAoI(P, s) != dAoI(P.(d_A := P.d_Ao), s)
  {
    var w := Zero.(AoI := 1.0);
    assert dAoI(P, w) == -(P.d_A + P.c * P.c_o);
    assert dAoI(P.(d_A := P.d_Ao), w) == -(P.d_Ao + P.c * P.c_o);
  }

  /** The two read-set irregularities on the state vector: entry 27 of the
      rate vector reads entry 27 of the state and nothing else, and entry 21
      does not read entry 20 (L4oI). */
  lemma IrregularReadsOnVector(P: Params, y: seq<real>, y': seq<real>, x: real)
    requires P.K_E != 0.0 && |y| == |y'| == Compartments
    ensures y[27] == y'[27] ==> Derivs(P, y)[27] == Derivs(P, y')[27]
    ensures Derivs(P, y[20 := x])[21] == Derivs(P, y)[21]
  {
    var s, s' := FromSeq(y), FromSeq(y');
    if y[27] == y'[27] {
      OverwinteringInfectedIsClosed(P, s, s');
    }
    assert FromSeq(y[20 := x]) == s.(L4oI := x);
    OccludedFifthInstarInflow(P, s, x, 0.0);
  }

  // ---------------------------------------------------------------- no flows

  /** Every per-capita flow rate of the model is zero. */
  predicate NoFlows(P: Params)
  {
    && P.d_A == P.l == P.b == P.d_E == P.m_E == P.d_1 == P.m_1 == 0.0
    && P.d_2 == P.m_2 == P.d_3 == P.m_3 == P.d_4 == P.m_4 == P.d_5 == P.m_5 == 0.0
    && P.d_2o == P.m_2o == P.d_3o == P.m_3o == P.d_4o == P.m_4o == P.d_5o == P.m_5o == P.d_Ao == 0.0
    && P.c == P.B_pb == P.B_bp == 0.0
  }

  /** With no flows at all every state is a rest point. */
  lemma NoFlowsStationary(P: Params, s: State)
    requires P.K_E != 0.0 && NoFlows(P)
    ensures Rates(P, s) == Zero
  {
  }

  /** Zero death, maturation, transition-out and transmission rates do not
      by themselves make every state a rest point: fecundity `b` still
      recruits eggs, and back-conversion `c` still moves every infected
      shadow back to its uninfected compartment.  Larvae of the first instar
      and the particle pools are at rest. */
  lemma StationaryNeedsNoConversionOrBirth(P: Params, s: State)
    requires P.K_E != 0.0
    requires NoFlows(P.(b := 0.0, c := 0.0))
    ensures dE(P, s) == P.b * 0.5 * (s.OA + s.OAI) * (1.0 - s.E / P.K_E)
    ensures dOA(P, s) == P.c * s.OAI == -dOAI(P, s)
    ensures dL2(P, s) == P.c * s.L2I == -dL2I(P, s)
    ensures dL2o(P, s) == P.c * P.c_o * s.L2oI == -dL2oI(P, s)
    ensures dL1(P, s) == 0.0 && dP_I(P, s) == 0.0
  {
    var Q := P.(b := 0.0, c := 0.0);
    assert P.d_A == Q.d_A && P.l == Q.l && P.m_1 == Q.m_1 && P.d_E == Q.d_E && P.m_E == Q.m_E;
    assert P.d_2 == Q.d_2 && P.m_2 == Q.m_2 && P.d_2o == Q.d_2o && P.m_2o == Q.m_2o;
    assert P.d_1 == Q.d_1 && P.B_pb == Q.B_pb && P.B_bp == Q.B_bp;
  }

  /** Conversely, zero death, maturation, transition-out and transmission
      rates leave some state off rest whenever fecundity or back-conversion
      is nonzero: an overwintering adult recruits eggs, an infected
      overwintering adult converts back. */
  lemma BirthOrConversionBreaksStationarity(P: Params)
    requires P.K_E != 0.0 && NoFlows(P.(b := 0.0, c := 0.0))
    requires P.b != 0.0 || P.c != 0.0
    ensures exists s: State :: Rates(P, s) != Zero
  {
    var Q := P.(b := 0.0, c := 0.0);
    assert P.d_A == Q.d_A && P.l == Q.l && P.d_E == Q.d_E && P.m_E == Q.m_E;
    if P.c != 0.0 {
      var w := Zero.(OAI := 1.0);
      assert dOA(P, w) == P.c;
      assert Rates(P, w).OA != 0.0;
    } else {
      var w := Zero.(OA := 1.0);
      assert dE(P, w) == P.b * 0.5;
      assert Rates(P, w).E != 0.0;
    }
  }

  // ---------------------------------------------------------------- positivity

  /** Biologically meaningful parameters: rates are nonnegative, the split
      is a probability and the egg capacity is positive. */
  predicate ValidParams(P: Params)
  {
    && P.d_A >= 0.0 && P.l >= 0.0 && P.b >= 0.0 && P.K_E > 0.0 && P.d_E >= 0.0 && P.m_E >= 0.0
    && P.d_1 >= 0.0 && P.m_1 >= 0.0 && P.d_2 >= 0.0 && P.m_2 >= 0.0 && P.d_3 >= 0.0 && P.m_3 >= 0.0
    && P.d_4 >= 0.0 && P.m_4 >= 0.0 && P.d_5 >= 0.0 && P.m_5 >= 0.0 && 0.0 <= P.p <= 1.0
    && P.d_2o >= 0.0 && P.m_2o >= 0.0 && P.d_3o >= 0.0 && P.m_3o >= 0.0 && P.d_4o >= 0.0
    && P.m_4o >= 0.0 && P.d_5o >= 0.0 && P.m_5o >= 0.0 && P.d_Ao >= 0.0 && P.c >= 0.0
    && P.B_pb >= 0.0 && P.c_o >= 0.0 && P.B_bp >= 0.0 && P.B_o >= 0.0 && P.P0 >= 0.0
  }

  /** Every compartment nonnegative and the free pool within capacity. */
  predicate FeasibleState(P: Params, s: State)
  {
    && s.OA >= 0.0 && s.E >= 0.0 && s.L1 >= 0.0
    && s.L2 >= 0.0 && s.L3 >= 0.0 && s.L4 >= 0.0 && s.L5 >= 0.0 && s.A >= 0.0
    && s.L2o >= 0.0 && s.L3o >= 0.0 && s.L4o >= 0.0 && s.L5o >= 0.0 && s.Ao >= 0.0
    && s.L2I >= 0.0 && s.L3I >= 0.0 && s.L4I >= 0.0 && s.L5I >= 0.0 && s.AI >= 0.0
    && s.L2oI >= 0.0 && s.L3oI >= 0.0 && s.L4oI >= 0.0 && s.L5oI >= 0.0 && s.AoI >= 0.0
    && s.P_I >= 0.0 && s.Apo_PI >= 0.0 && s.Sym_PI >= 0.0 && s.OA_PI >= 0.0 && s.OAI >= 0.0
    && s.P_I <= P.P0
  }

  /** The same region on the state vector. */
  predicate Feasible(P: Params, y: seq<real>)
  {
    |y| == Compartments && FeasibleState(P, FromSeq(y))
  }


  /** Overwintering adults, eggs, first instars and infected overwintering adults. */
  lemma InwardHeadOfLifeCycle(P: Params, s: State)
    requires ValidParams(P) && FeasibleState(P, s)
    ensures s.OA == 0.0 ==> dOA(P, s) >= 0.0
    ensures s.E == 0.0 ==> dE(P, s) >= 0.0
    ensures s.L1 == 0.0 ==> dL1(P, s) >= 0.0
    ensures s.OAI == 0.0 ==> dOAI(P, s) >= 0.0
  {
  }

  /** Uninfected stages of the primary route. */
  lemma InwardPrimaryUninfected(P: Params, s: State)
    requires ValidParams(P) && FeasibleState(P, s)
    ensures s.L2 == 0.0 ==> dL2(P, s) >= 0.0
    ensures s.L3 == 0.0 ==> dL3(P, s) >= 0.0
    ensures s.L4 == 0.0 ==> dL4(P, s) >= 0.0
    ensures s.L5 == 0.0 ==> dL5(P, s) >= 0.0
    ensures s.A == 0.0 ==> dA(P, s) >= 0.0
  {
  }

  /** Uninfected stages of the occluded route. */
  lemma InwardOccludedUninfected(P: Params, s: State)
    requires ValidParams(P) && FeasibleState(P, s)
    ensures s.L2o == 0.0 ==> dL2o(P, s) >= 0.0
    ensures s.L3o == 0.0 ==> dL3o(P, s) >= 0.0
    ensures s.L4o == 0.0 ==> dL4o(P, s) >= 0.0
    ensures s.L5o == 0.0 ==> dL5o(P, s) >= 0.0
    ensures s.Ao == 0.0 ==> dAo(P, s) >= 0.0
  {
  }

  /** Infected shadows of the primary route. */
  lemma InwardPrimaryInfected(P: Params, s: State)
    requires ValidParams(P) && FeasibleState(P, s)
    ensures s.L2I == 0.0 ==> dL2I(P, s) >= 0.0
    ensures s.L3I == 0.0 ==> dL3I(P, s) >= 0.0
    ensures s.L4I == 0.0 ==> dL4I(P, s) >= 0.0
    ensures s.L5I == 0.0 ==> dL5I(P, s) >= 0.0
    ensures s.AI == 0.0 ==> dAI(P, s) >= 0.0
  {
  }

  /** Infected shadows of the occluded route. */
  lemma InwardOccludedInfected(P: Params, s: State)
    requires ValidParams(P) && FeasibleState(P, s)
    ensures s.L2oI == 0.0 ==> dL2oI(P, s) >= 0.0
    ensures s.L3oI == 0.0 ==> dL3oI(P, s) >= 0.0
    ensures s.L4oI == 0.0 ==> dL4oI(P, s) >= 0.0
    ensures s.L5oI == 0.0 ==> dL5oI(P, s) >= 0.0
    ensures s.AoI == 0.0 ==> dAoI(P, s) >= 0.0
  {
  }

  /** The free particle pool, from below and from capacity, and the three accumulators. */
  lemma InwardPools(P: Params, s: State)
    requires ValidParams(P) && FeasibleState(P, s)
    ensures s.P_I == 0.0 ==> dP_I(P, s) >= 0.0
    ensures s.Apo_PI == 0.0 ==> dApo_PI(P, s) >= 0.0
    ensures s.Sym_PI == 0.0 ==> dSym_PI(P, s) >= 0.0
    ensures s.OA_PI == 0.0 ==> dOA_PI(P, s) >= 0.0
    ensures s.P_I == P.P0 ==> dP_I(P, s) <= 0.0
  {
  }

  /** The program checks no parameter range, and without `p <= 1` the
      feasible region is not kept: when the primary share exceeds one, an
      empty L2o with first instars present has a negative rate. */
  lemma RouteShareAboveOneLeavesRegion(P: Params)
    requires P.p > 1.0 && P.m_1 > 0.0 && P.P0 >= 0.0
    ensures exists s: State :: FeasibleState(P, s) && s.L2o == 0.0 && dL2o(P, s) < 0.0
  {
    var w := Zero.(L1 := 1.0);
    assert dL2o(P, w) == (1.0 - P.p) * P.m_1;
    assert FeasibleState(P, w);
  }

  /** For biologically meaningful parameters, every rate on the boundary of
      the feasible region points inward: an empty compartment never has a
      negative rate and a free pool at capacity never has a positive one.
      Stated on the state vector the integrator sees; for this locally
      Lipschitz field that makes the region forward invariant. */
  lemma FeasibleRegionInvariant(P: Params, y: seq<real>)
    requires ValidParams(P) && Feasible(P, y)
    ensures forall i :: 0 <= i < Compartments && y[i] == 0.0 ==> Derivs(P, y)[i] >= 0.0
    ensures y[23] == P.P0 ==> Derivs(P, y)[23] <= 0.0
  {
    var s := FromSeq(y);
    InwardHeadOfLifeCycle(P, s);
    InwardPrimaryUninfected(P, s);
    InwardOccludedUninfected(P, s);
    InwardPrimaryInfected(P, s);
    InwardOccludedInfected(P, s);
    InwardPools(P, s);
  }
}
