/** Redemption of a promotion code: a check, then one conditional increment, with any number of
    redeemers between the two. */
module Promotion {
  import opened Options
  import opened Traces

  datatype Promo = Promo(active: bool, validFrom: Option<int>, validUntil: Option<int>, maxUses: Option<int>, used: int)

  datatype Verdict = Usable | Inactive | NotYet | Expired | FullyUsed

  function Check(p: Promo, now: int): Verdict {
    if !p.active then Inactive
    else if p.validFrom.Some? && p.validFrom.value > now then NotYet
    else if p.validUntil.Some? && p.validUntil.value < now then Expired
    else if p.maxUses.Some? && p.used >= p.maxUses.value then FullyUsed
    else Usable
  }

  /** The condition of the update statement; `limit` is the one read by the check. */
  predicate Consumable(p: Promo, limit: Option<int>) {
    p.active && (limit.Some? ==> p.used < limit.value)
  }

  predicate Early(p: Promo, now: int) {
    p.validFrom.Some? && now < p.validFrom.value
  }

  predicate Late(p: Promo, now: int) {
    p.validUntil.Some? && p.validUntil.value < now
  }

  predicate InWindow(p: Promo, now: int) {
    !Early(p, now) && !Late(p, now)
  }

  class PromotionCodeService {
    var active: bool
    var validFrom: Option<int>
    var validUntil: Option<int>
    var maxUses: Option<int>
    var used: int

    function State(): Promo
      reads this
    {
      Promo(active, validFrom, validUntil, maxUses, used)
    }

    /** Usable exactly when the moment lies in the code's window and an increment made at once would
        succeed; otherwise the first obstacle is named, inactivity before dates before exhaustion. */
    method Validate(now: int) returns (verdict: Verdict)
      ensures verdict.Usable? <==> InWindow(State(), now) && Consumable(State(), maxUses)
      ensures verdict.Inactive? <==> !active
      ensures verdict.NotYet? <==> active && Early(State(), now)
      ensures verdict.Expired? <==> active && !Early(State(), now) && Late(State(), now)
      ensures verdict.FullyUsed? <==> active && InWindow(State(), now) && !Consumable(State(), maxUses)
      ensures verdict == Check(State(), now)
    {
      if !active { return Inactive; }
      if validFrom.Some? && validFrom.value > now { return NotYet; }
      if validUntil.Some? && validUntil.value < now { return Expired; }
      if maxUses.Some? && used >= maxUses.value { return FullyUsed; }
      verdict := Usable;
    }

    method Consume(limit: Option<int>) returns (consumed: bool)
      modifies this`used
      ensures consumed <==> Consumable(old(State()), limit)
      ensures State() == old(State()).(used := if consumed then old(used) + 1 else old(used))
    {
      consumed := active && (limit.None? || used < limit.value);
      if consumed { used := used + 1; }
    }

    /** Nobody else in between: a check that passes is followed by a successful increment. */
    method Apply(now: int) returns (verdict: Verdict)
      modifies this`used
      ensures verdict == Check(old(State()), now)
      ensures State() == old(State()).(used := if verdict == Usable then old(used) + 1 else old(used))
    {
      verdict := Validate(now);
      if verdict != Usable { return; }
      var consumed := Consume(maxUses);
      if !consumed { verdict := FullyUsed; }
    }
  }

  /** An active code with uses left is usable from its first instant to its last, both included; each
      date that is not set sets no bound. */
  lemma UsableFromTo(p: Promo, now: int)
    requires p.active && (p.maxUses.Some? ==> p.used < p.maxUses.value)
    ensures p.validFrom.None? && p.validUntil.None? ==> Check(p, now).Usable?
    ensures p.validFrom.Some? && p.validUntil.None? ==> (Check(p, now).Usable? <==> p.validFrom.value <= now)
    ensures p.validFrom.None? && p.validUntil.Some? ==> (Check(p, now).Usable? <==> now <= p.validUntil.value)
    ensures p.validFrom.Some? && p.validUntil.Some? ==>
              (Check(p, now).Usable? <==> p.validFrom.value <= now <= p.validUntil.value)
    ensures Check(p, now).NotYet? <==> p.validFrom.Some? && now < p.validFrom.value
    ensures Check(p, now).Expired? <==>
              p.validUntil.Some? && p.validUntil.value < now && (p.validFrom.Some? ==> p.validFrom.value <= now)
  {
  }

  /** A code has uses left until it has been used as often as its limit allows, and without a limit always;
      switched off it is usable never. */
  lemma UsableWhileUsesLeft(p: Promo, now: int)
    requires p.validFrom.None? && p.validUntil.None?
    ensures Check(p, now).Usable? <==> p.active && (p.maxUses.Some? ==> p.used < p.maxUses.value)
    ensures Check(p, now).FullyUsed? <==> p.active && p.maxUses.Some? && p.maxUses.value <= p.used
    ensures Check(p, now).Inactive? <==> !p.active
  {
  }

  // ----- Interleaved redeemers ----------------------------------------------------------------

  datatype Phase = Idle | Checked(limit: Option<int>) | Consumed | TurnedDown | Beaten

  datatype World = World(promo: Promo, redeemers: map<nat, Phase>)

  datatype Action =
    | Validate(r: nat, now: int)
    | Consume(r: nat)
    | Update(newActive: bool, newLimit: Option<int>, newFrom: Option<int>, newUntil: Option<int>)

  function PhaseOf(w: World, r: nat): Phase {
    if r in w.redeemers then w.redeemers[r] else Idle
  }

  /** `Beaten` is a redeemer whose check passed but whose increment matched no row. */
  function Act(w: World, a: Action): World {
    match a
    case Validate(r, now) =>
      if PhaseOf(w, r).Idle?
      then
        var verdict := if Check(w.promo, now).Usable? then Checked(w.promo.maxUses) else TurnedDown;
        w.(redeemers := w.redeemers[r := verdict])
      else w
    case Consume(r) =>
      if !PhaseOf(w, r).Checked? then w
      else if Consumable(w.promo, PhaseOf(w, r).limit)
      then w.(promo := w.promo.(used := w.promo.used + 1), redeemers := w.redeemers[r := Consumed])
      else w.(redeemers := w.redeemers[r := Beaten])
    case Update(active, limit, from, until) =>
      w.(promo := w.promo.(active := active, maxUses := limit, validFrom := from, validUntil := until))
  }

  function Run(w: World, actions: seq<Action>): World {
    if actions == [] then w else Act(Run(w, actions[..|actions| - 1]), actions[|actions| - 1])
  }

  predicate FreshRedeemers(w: World) {
    w.redeemers == map[]
  }

  predicate AtMost(limit: Option<int>, bound: int) {
    limit.Some? && limit.value <= bound
  }

  /** Every limit the code is ever given stays within `bound`. */
  predicate LimitsWithin(actions: seq<Action>, bound: int) {
    forall i :: 0 <= i < |actions| && actions[i].Update? ==> AtMost(actions[i].newLimit, bound)
  }

  predicate WithinBound(w: World, bound: int) {
    && AtMost(w.promo.maxUses, bound)
    && w.promo.used <= bound
    && forall r :: r in w.redeemers && w.redeemers[r].Checked? ==> AtMost(w.redeemers[r].limit, bound)
  }

  lemma {:induction false} RunKeepsBound(w: World, actions: seq<Action>, bound: int)
    requires WithinBound(w, bound) && LimitsWithin(actions, bound)
    ensures WithinBound(Run(w, actions), bound)
    decreases |actions|
  {
    if actions != [] { RunKeepsBound(w, actions[..|actions| - 1], bound); }
  }

  /** However the redeemers interleave and the limit is edited, the code is never used more often than
      the largest limit it was ever given. */
  lemma NeverOverRedeemed(w: World, actions: seq<Action>, bound: int)
    requires FreshRedeemers(w)
    requires AtMost(w.promo.maxUses, bound) && w.promo.used <= bound
    requires LimitsWithin(actions, bound)
    ensures Run(w, actions).promo.used <= bound
  {
    RunKeepsBound(w, actions, bound);
  }

  predicate WithinLimit(p: Promo) {
    p.maxUses.Some? ==> p.used <= p.maxUses.value
  }

  /** An edit does not set the limit below the present count, and an increment allowed by the limit read
      earlier is also allowed by the present one. */
  predicate RespectsLimit(w: World, a: Action) {
    match a
    case Validate(_, _) => true
    case Update(_, limit, _, _) => limit.Some? ==> w.promo.used <= limit.value
    case Consume(r) =>
      PhaseOf(w, r).Checked? && Consumable(w.promo, PhaseOf(w, r).limit) && w.promo.maxUses.Some? ==>
        w.promo.used < w.promo.maxUses.value
  }

  lemma StepWithinLimitIff(w: World, a: Action)
    requires WithinLimit(w.promo)
    ensures WithinLimit(Act(w, a).promo) <==> RespectsLimit(w, a)
  {
  }

  lemma RunToNext(w: World, actions: seq<Action>, i: nat)
    requires i < |actions|
    ensures Run(w, actions[..i + 1]) == Act(Run(w, actions[..i]), actions[i])
  {
    assert actions[..i + 1] == actions[..i] + [actions[i]];
    RunExtends(w, actions[..i], actions[i]);
  }

  /** Under any interleaving of redeemers and edits: the count stays within the limit in force at every
      moment if and only if no edit went below the count and no increment passed on a stale limit what
      the present limit forbids. */
  lemma WithinLimitIff(w: World, actions: seq<Action>)
    requires WithinLimit(w.promo)
    ensures (forall i :: 0 <= i <= |actions| ==> WithinLimit(Run(w, actions[..i]).promo)) <==>
              (forall i :: 0 <= i < |actions| ==> RespectsLimit(Run(w, actions[..i]), actions[i]))
  {
    var n := |actions|;
    var good := seq(n + 1, i requires 0 <= i <= n => WithinLimit(Run(w, actions[..i]).promo));
    var sound := seq(n, i requires 0 <= i < n => RespectsLimit(Run(w, actions[..i]), actions[i]));
    assert actions[..0] == [];
    forall i | 0 <= i < n && good[i]
      ensures good[i + 1] <==> sound[i]
    {
      RunToNext(w, actions, i);
      StepWithinLimitIff(Run(w, actions[..i]), actions[i]);
    }
    ChainIff(good, sound, n);
    assert forall i :: 0 <= i <= n ==> good[i] == WithinLimit(Run(w, actions[..i]).promo);
    assert forall i :: 0 <= i < n ==> sound[i] == RespectsLimit(Run(w, actions[..i]), actions[i]);
  }

  /** With the limit left alone the condition is met, so the count never passes it. */
  lemma FixedLimitHolds(w: World, actions: seq<Action>)
    requires FreshRedeemers(w) && LimitFixed(actions, w.promo.maxUses) && WithinLimit(w.promo)
    ensures forall i :: 0 <= i <= |actions| ==> WithinLimit(Run(w, actions[..i]).promo)
  {
    forall i | 0 <= i <= |actions|
      ensures WithinLimit(Run(w, actions[..i]).promo)
    {
      FixedLimitHoldsAt(w, actions[..i]);
    }
  }

  lemma {:induction false} FixedLimitHoldsAt(w: World, actions: seq<Action>)
    requires FreshRedeemers(w) && LimitFixed(actions, w.promo.maxUses) && WithinLimit(w.promo)
    ensures WithinLimit(Run(w, actions).promo)
    decreases |actions|
  {
    if actions != [] {
      var before := actions[..|actions| - 1];
      FixedLimitHoldsAt(w, before);
      RunKeepsAgreement(w, before);
    }
  }

  /** Lowering the limit below a redemption under way does let the count pass the new limit. */
  lemma LoweredLimitCanBePassed() returns (w: World, actions: seq<Action>)
    ensures FreshRedeemers(w) && w.promo.used <= 2 && w.promo.maxUses == Some(2)
    ensures var n := Run(w, actions).promo; n.maxUses == Some(0) && n.used == 1
  {
    w := World(Promo(true, None, None, Some(2), 0), map[]);
    var check, lower, take := Validate(0, 0), Update(true, Some(0), None, None), Consume(0);
    RunExtends(w, [], check);
    RunExtends(w, [] + [check], lower);
    RunExtends(w, [] + [check] + [lower], take);
    actions := [] + [check] + [lower] + [take];
  }

  lemma RunExtends(w: World, actions: seq<Action>, a: Action)
    ensures Run(w, actions + [a]) == Act(Run(w, actions), a)
  {
    assert (actions + [a])[..|actions|] == actions;
  }

  /** An edit puts the given state, limit and dates in force for everybody who checks or consumes from then
      on, and touches neither the count nor anybody's progress. */
  lemma EditTakesForce(w: World, a: Action, r: nat, now: int)
    requires a.Update?
    ensures var n := Act(w, a);
            && n.redeemers == w.redeemers && n.promo.used == w.promo.used
            && (Check(n.promo, now).Usable? <==>
                  && a.newActive && (a.newLimit.Some? ==> w.promo.used < a.newLimit.value)
                  && (a.newFrom.Some? ==> a.newFrom.value <= now) && (a.newUntil.Some? ==> now <= a.newUntil.value))
            && (PhaseOf(w, r).Checked? ==>
                  (PhaseOf(Act(n, Consume(r)), r).Consumed? <==>
                     a.newActive && (PhaseOf(w, r).limit.Some? ==> w.promo.used < PhaseOf(w, r).limit.value)))
            && (PhaseOf(w, r).Idle? ==>
                  (PhaseOf(Act(n, Validate(r, now)), r) ==
                     if Check(n.promo, now).Usable? then Checked(a.newLimit) else TurnedDown))
  {
  }

  // ----- The count ----------------------------------------------------------------------------

  function Consumers(w: World): set<nat> {
    set r | r in w.redeemers && w.redeemers[r].Consumed?
  }

  lemma StepCounts(w: World, a: Action)
    ensures Act(w, a).promo.used - |Consumers(Act(w, a))| == w.promo.used - |Consumers(w)|
  {
    var n := Act(w, a);
    if a.Consume? && n.promo.used != w.promo.used {
      assert Consumers(n) == Consumers(w) + {a.r};
      assert a.r !in Consumers(w);
    } else {
      assert Consumers(n) == Consumers(w);
    }
  }

  /** The counter is the initial count plus the number of redeemers that got their use. */
  lemma {:induction false} CounterIsExact(w: World, actions: seq<Action>)
    requires FreshRedeemers(w)
    ensures Run(w, actions).promo.used == w.promo.used + |Consumers(Run(w, actions))|
    decreases |actions|
  {
    if actions == [] {
      assert Consumers(w) == {};
    } else {
      CounterIsExact(w, actions[..|actions| - 1]);
      StepCounts(Run(w, actions[..|actions| - 1]), actions[|actions| - 1]);
    }
  }

  // ----- Who is turned away -------------------------------------------------------------------

  /** The limit is never edited. */
  predicate LimitFixed(actions: seq<Action>, limit: Option<int>) {
    forall i :: 0 <= i < |actions| && actions[i].Update? ==> actions[i].newLimit == limit
  }

  predicate ChecksAgree(w: World, limit: Option<int>) {
    && w.promo.maxUses == limit
    && forall r :: r in w.redeemers && w.redeemers[r].Checked? ==> w.redeemers[r].limit == limit
  }

  lemma {:induction false} RunKeepsAgreement(w: World, actions: seq<Action>)
    requires FreshRedeemers(w) && LimitFixed(actions, w.promo.maxUses)
    ensures ChecksAgree(Run(w, actions), w.promo.maxUses)
    decreases |actions|
  {
    if actions != [] { RunKeepsAgreement(w, actions[..|actions| - 1]); }
  }

  /** With a fixed limit, a redeemer whose check passed fails to consume exactly if, at that moment,
      the code is inactive or used up. */
  lemma BeatenIffExhaustedOrInactive(w: World, actions: seq<Action>, r: nat)
    requires FreshRedeemers(w) && LimitFixed(actions, w.promo.maxUses)
    requires PhaseOf(Run(w, actions), r).Checked?
    ensures var now := Run(w, actions);
            var after := Act(now, Consume(r));
            && (PhaseOf(after, r).Beaten? <==>
                  !now.promo.active || (now.promo.maxUses.Some? && now.promo.used >= now.promo.maxUses.value))
            && (PhaseOf(after, r).Consumed? <==> !PhaseOf(after, r).Beaten?)
            && after.promo.used == now.promo.used + (if PhaseOf(after, r).Consumed? then 1 else 0)
  {
    RunKeepsAgreement(w, actions);
  }

  predicate StaysActive(actions: seq<Action>) {
    forall i :: 0 <= i < |actions| && actions[i].Update? ==> actions[i].newActive
  }

  predicate BeatenOnlyWhenFull(w: World) {
    w.promo.active
    && forall r :: r in w.redeemers && w.redeemers[r].Beaten? ==>
         w.promo.maxUses.Some? && w.promo.used >= w.promo.maxUses.value
  }

  /** No use is wasted: while the code stays active under a fixed limit, somebody is beaten to a use
      only once all uses are gone. */
  lemma {:induction false} NoUseIsWasted(w: World, actions: seq<Action>)
    requires FreshRedeemers(w) && w.promo.active
    requires LimitFixed(actions, w.promo.maxUses) && StaysActive(actions)
    ensures BeatenOnlyWhenFull(Run(w, actions))
    decreases |actions|
  {
    if actions != [] {
      var before := actions[..|actions| - 1];
      NoUseIsWasted(w, before);
      RunKeepsAgreement(w, before);
    }
  }
}
