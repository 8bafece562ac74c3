/** The right-hand side of the stage-structured squash bug / pathogen ODE
    system: 28 compartment densities in, 28 rates of change out.

    `Rates` states the 28 equations on named compartments, `Derivs` is the
    same map on the positional vector an integrator hands over, and
    `DerivsInto` is the C routine itself: it reads the caller's `y` buffer
    and fills the caller's `ydot` buffer in place.  Arithmetic is over exact
    reals where the program uses doubles. */
module Derivatives {
  import opened Parameters

  /** Length of the state vector and of the rate vector. */
  const Compartments: nat := 28

  /** One value per compartment, in the order of the state vector.  A rate
      vector has the same shape, so it is a `State` too. */
  datatype State = State(
    OA: real,      // 0: overwintering adults
    E: real,       // 1: eggs
    L1: real,      // 2: first instar, before the route split
    L2: real,      // 3..7: primary route, uninfected
    L3: real,
    L4: real,
    L5: real,
    A: real,
    L2o: real,     // 8..12: occluded route, uninfected
    L3o: real,
    L4o: real,
    L5o: real,
    Ao: real,
    L2I: real,     // 13..17: primary route, infected shadow
    L3I: real,
    L4I: real,
    L5I: real,
    AI: real,
    L2oI: real,    // 18..22: occluded route, infected shadow
    L3oI: real,
    L4oI: real,
    L5oI: real,
    AoI: real,
    P_I: real,     // 23: free infectious particles
    Apo_PI: real,  // 24: occluded-route particle production, accumulated
    Sym_PI: real,  // 25: primary-route particle production, accumulated
    OA_PI: real,   // 26: overwintering-adult particle production, accumulated
    OAI: real      // 27: infected overwintering adults
  )

  /** Reads the named compartments off a state vector. */
  function FromSeq(y: seq<real>): (s: State)
    requires |y| == Compartments
    ensures s.OA == y[0] && s.P_I == y[23] && s.OAI == y[27]
  {
    State(
      y[0], y[1], y[2], y[3], y[4], y[5], y[6], y[7], y[8], y[9],
      y[10], y[11], y[12], y[13], y[14], y[15], y[16], y[17], y[18], y[19],
      y[20], y[21], y[22], y[23], y[24], y[25], y[26], y[27])
  }

  /** Lays the named compartments out as a state vector. */
  function ToSeq(s: State): (y: seq<real>)
    ensures |y| == Compartments
    ensures y[1] == s.E && y[21] == s.L5oI && y[24] == s.Apo_PI
  {
    [s.OA, s.E, s.L1, s.L2, s.L3, s.L4, s.L5, s.A, s.L2o, s.L3o,
     s.L4o, s.L5o, s.Ao, s.L2I, s.L3I, s.L4I, s.L5I, s.AI, s.L2oI, s.L3oI,
     s.L4oI, s.L5oI, s.AoI, s.P_I, s.Apo_PI, s.Sym_PI, s.OA_PI, s.OAI]
  }

  /** Every state vector is recovered from its named compartments. */
  lemma SeqRoundTrip(y: seq<real>)
    requires |y| == Compartments
    ensures ToSeq(FromSeq(y)) == y
  {
  }

  /** Every record of compartments is recovered from its state vector. */
  lemma StateRoundTrip(s: State)
    ensures FromSeq(ToSeq(s)) == s
  {
  }

  // The 28 rate equations, one per compartment, in index order.  `dX(P, s)`
  // is the rate of change of compartment X.

  /** Overwintering adults: death and transition-out, plus back-conversion from OAI. */
  function dOA(P: Params, s: State): real
  {
    -(P.d_A + P.l) * s.OA + P.c * s.OAI
  }

  /** Eggs: logistic recruitment by the mean of uninfected and infected
      overwintering adults, minus death and maturation.  Needs `K_E != 0`. */
  function dE(P: Params, s: State): real
    requires P.K_E != 0.0
  {
    P.b * 0.5 * (s.OA + s.OAI) * (1.0 - s.E / P.K_E) - (P.d_E + P.m_E) * s.E
  }

  /** First instars: egg maturation in, death and maturation out. */
  function dL1(P: Params, s: State): real
  {
    P.m_E * s.E - (P.d_1 + P.m_1) * s.L1
  }

  /** Primary route, second instars: the `p` share of first-instar maturation
      in; death, maturation and exposure out; back-conversion from L2I in. */
  function dL2(P: Params, s: State): real
  {
    P.p * P.m_1 * s.L1 - (P.d_2 + P.m_2) * s.L2 + P.c * s.L2I - P.B_pb * s.L2 * s.P_I
  }

  /** Primary route, third instars. */
  function dL3(P: Params, s: State): real
  {
    P.m_2 * s.L2 - (P.d_3 + P.m_3) * s.L3 + P.c * s.L3I - P.B_pb * s.L3 * s.P_I
  }

  /** Primary route, fourth instars. */
  function dL4(P: Params, s: State): real
  {
    P.m_3 * s.L3 - (P.d_4 + P.m_4) * s.L4 + P.c * s.L4I - P.B_pb * s.L4 * s.P_I
  }

  /** Primary route, fifth instars. */
  function dL5(P: Params, s: State): real
  {
    P.m_4 * s.L4 - (P.d_5 + P.m_5) * s.L5 + P.c * s.L5I - P.B_pb * s.L5 * s.P_I
  }

  /** Primary route, adults: no maturation out. */
  function dA(P: Params, s: State): real
  {
    P.m_5 * s.L5 - P.d_A * s.A + P.c * s.AI - P.B_pb * s.A * s.P_I
  }

  /** Occluded route, second instars: the `1 - p` share of first-instar
      maturation in; back-conversion at `c*c_o`. */
  function dL2o(P: Params, s: State): real
  {
    (1.0 - P.p) * P.m_1 * s.L1 - (P.d_2o + P.m_2o) * s.L2o + P.c * P.c_o * s.L2oI - P.B_pb * s.L2o * s.P_I
  }

  /** Occluded route, third instars. */
  function dL3o(P: Params, s: State): real
  {
    P.m_2o * s.L2o - (P.d_3o + P.m_3o) * s.L3o + P.c * P.c_o * s.L3oI - P.B_pb * s.L3o * s.P_I
  }

  /** Occluded route, fourth instars. */
  function dL4o(P: Params, s: State): real
  {
    P.m_3o * s.L3o - (P.d_4o + P.m_4o) * s.L4o + P.c * P.c_o * s.L4oI - P.B_pb * s.L4o * s.P_I
  }

  /** Occluded route, fifth instars. */
  function dL5o(P: Params, s: State): real
  {
    P.m_4o * s.L4o - (P.d_5o + P.m_5o) * s.L5o + P.c * P.c_o * s.L5oI - P.B_pb * s.L5o * s.P_I
  }

  /** Occluded route, adults, dying at `d_Ao`. */
  function dAo(P: Params, s: State): real
  {
    P.m_5o * s.L5o - P.d_Ao * s.Ao + P.c * P.c_o * s.AoI - P.B_pb * s.Ao * s.P_I
  }

  /** Infected primary second instars: exposure of L2 in; death, maturation
      and back-conversion out. */
  function dL2I(P: Params, s: State): real
  {
    P.B_pb * s.L2 * s.P_I - (P.d_2 + P.m_2 + P.c) * s.L2I
  }

  /** Infected primary third instars. */
  function dL3I(P: Params, s: State): real
  {
    P.m_2 * s.L2I + P.B_pb * s.L3 * s.P_I - (P.d_3 + P.m_3 + P.c) * s.L3I
  }

  /** Infected primary fourth instars. */
  function dL4I(P: Params, s: State): real
  {
    P.m_3 * s.L3I + P.B_pb * s.L4 * s.P_I - (P.d_4 + P.m_4 + P.c) * s.L4I
  }

  /** Infected primary fifth instars. */
  function dL5I(P: Params, s: State): real
  {
    P.m_4 * s.L4I + P.B_pb * s.L5 * s.P_I - (P.d_5 + P.m_5 + P.c) * s.L5I
  }

  /** Infected primary adults. */
  function dAI(P: Params, s: State): real
  {
    P.m_5 * s.L5I + P.B_pb * s.A * s.P_I - (P.d_A + P.c) * s.AI
  }

  /** Infected occluded second instars. */
  function dL2oI(P: Params, s: State): real
  {
    P.B_pb * s.L2o * s.P_I - (P.d_2o + P.m_2o + P.c * P.c_o) * s.L2oI
  }

  /** Infected occluded third instars. */
  function dL3oI(P: Params, s: State): real
  {
    P.m_2o * s.L2oI + P.B_pb * s.L3o * s.P_I - (P.d_3o + P.m_3o + P.c * P.c_o) * s.L3oI
  }

  /** Infected occluded fourth instars. */
  function dL4oI(P: Params, s: State): real
  {
    P.m_3o * s.L3oI + P.B_pb * s.L4o * s.P_I - (P.d_4o + P.m_4o + P.c * P.c_o) * s.L4oI
  }

  /** Infected occluded fifth instars.  The program takes the maturation
      inflow from L2oI, not L4oI; kept as written. */
  function dL5oI(P: Params, s: State): real
  {
    P.m_4o * s.L2oI + P.B_pb * s.L5o * s.P_I - (P.d_5o + P.m_5o + P.c * P.c_o) * s.L5oI
  }

  /** Infected occluded adults.  The program lets them die at `d_A`, not
      `d_Ao`; kept as written. */
  function dAoI(P: Params, s: State): real
  {
    P.m_5o * s.L5oI + P.B_pb * s.Ao * s.P_I - (P.d_A + P.c * P.c_o) * s.AoI
  }

  /** Free particles: production by every infected compartment, primary and
      overwintering at `B_bp`, occluded at `B_o*B_bp`, limited by the headroom
      `P0 - P_I`. */
  function dP_I(P: Params, s: State): real
  {
    P.B_bp * (s.L2I + s.L3I + s.L4I + s.L5I + s.AI + s.OAI) * (P.P0 - s.P_I)
      + P.B_o * P.B_bp * (s.L2oI + s.L3oI + s.L4oI + s.L5oI + s.AoI) * (P.P0 - s.P_I)
  }

  /** Accumulated production of the occluded route. */
  function dApo_PI(P: Params, s: State): real
  {
    P.B_bp * P.B_o * (s.L2oI + s.L3oI + s.L4oI + s.L5oI + s.AoI) * (P.P0 - s.P_I)
  }

  /** Accumulated production of the primary route. */
  function dSym_PI(P: Params, s: State): real
  {
    (P.B_bp * (s.L2I + s.L3I + s.L4I + s.L5I + s.AI)) * (P.P0 - s.P_I)
  }

  /** Accumulated production of the infected overwintering adults. */
  function dOA_PI(P: Params, s: State): real
  {
    P.B_bp * s.OAI * (P.P0 - s.P_I)
  }

  /** Infected overwintering adults: decay only; the program gives this
      equation no inflow, kept as written. */
  function dOAI(P: Params, s: State): real
  {
    -(P.d_A + P.l + P.c) * s.OAI
  }

  /** The whole rate vector.  The contract records the two balances that
      hold for every state: the free-particle rate is the sum of the three
      production accumulators' rates, and back-conversion only moves
      overwintering adults between OA and OAI, so their total changes by
      death and transition-out alone. */
  function Rates(P: Params, s: State): (r: State)
    requires P.K_E != 0.0
    ensures r.P_I == r.Apo_PI + r.Sym_PI + r.OA_PI
    ensures r.OA + r.OAI == -(P.d_A + P.l) * (s.OA + s.OAI)
  {
    State(
      dOA(P, s),
      dE(P, s),
      dL1(P, s),
      dL2(P, s),
      dL3(P, s),
      dL4(P, s),
      dL5(P, s),
      dA(P, s),
      dL2o(P, s),
      dL3o(P, s),
      dL4o(P, s),
      dL5o(P, s),
      dAo(P, s),
      dL2I(P, s),
      dL3I(P, s),
      dL4I(P, s),
      dL5I(P, s),
      dAI(P, s),
      dL2oI(P, s),
      dL3oI(P, s),
      dL4oI(P, s),
      dL5oI(P, s),
      dAoI(P, s),
      dP_I(P, s),
      dApo_PI(P, s),
      dSym_PI(P, s),
      dOA_PI(P, s),
      dOAI(P, s))
  }

  /** The rate vector for a state vector, index for index. */
  function Derivs(P: Params, y: seq<real>): (ydot: seq<real>)
    requires P.K_E != 0.0 && |y| == Compartments
    ensures |ydot| == Compartments
    ensures ydot[23] == ydot[24] + ydot[25] + ydot[26]
  {
    ToSeq(Rates(P, FromSeq(y)))
  }

  /** The C routine `derivs`: copies the 28 compartments out of `y`, then
      assigns the 28 rates to `ydot[0..27]` one by one.  `neq` and `t` are
      accepted and not used.  Because every read precedes every write, the
      result is right even when `y` and `ydot` are the same buffer, and `y`
      is left alone whenever it is a different buffer. */
  method DerivsInto(P: Params, neq: int, t: real, y: array<real>, ydot: array<real>)
    requires P.K_E != 0.0
    requires y.Length == Compartments && ydot.Length == Compartments
    modifies ydot
    ensures ydot[..] == Derivs(P, old(y[..]))
    ensures y != ydot ==> y[..] == old(y[..])
  {
    // the program first copies every compartment out of `y` into a named local
    var s := FromSeq(y[..]);
    // then assigns the 28 rates in index order
    ydot[0] := dOA(P, s);
    ydot[1] := dE(P, s);
    ydot[2] := dL1(P, s);
    ydot[3] := dL2(P, s);
    ydot[4] := dL3(P, s);
    ydot[5] := dL4(P, s);
    ydot[6] := dL5(P, s);
    ydot[7] := dA(P, s);
    ydot[8] := dL2o(P, s);
    ydot[9] := dL3o(P, s);
    ydot[10] := dL4o(P, s);
    ydot[11] := dL5o(P, s);
    ydot[12] := dAo(P, s);
    ydot[13] := dL2I(P, s);
    ydot[14] := dL3I(P, s);
    ydot[15] := dL4I(P, s);
    ydot[16] := dL5I(P, s);
    ydot[17] := dAI(P, s);
    ydot[18] := dL2oI(P, s);
    ydot[19] := dL3oI(P, s);
    ydot[20] := dL4oI(P, s);
    ydot[21] := dL5oI(P, s);
    ydot[22] := dAoI(P, s);
    ydot[23] := dP_I(P, s);
    ydot[24] := dApo_PI(P, s);
    ydot[25] := dSym_PI(P, s);
    ydot[26] := dOA_PI(P, s);
    ydot[27] := dOAI(P, s);
    assert FromSeq(ydot[..]) == Rates(P, s);
    SeqRoundTrip(ydot[..]);
  }
}
