/** What every run of charges keeps (sentrylink/crypto/differential_privacy.py, PrivacyAccountant). */
module AccountantTheorems {
  import opened Foundations
  import opened DifferentialPrivacy

  ghost predicate Admits(m: Analysis, acc: Accountant, req: Request) {
    WellFormed(acc, req) && Decide(m, acc, req).Admitted?
  }

  ghost predicate Refuses(m: Analysis, acc: Accountant, req: Request) {
    WellFormed(acc, req) && Decide(m, acc, req).Denied?
  }

  /** A run of charge calls: admitted ones take effect, all others leave the accountant as it was. */
  ghost function Run(m: Analysis, acc: Accountant, reqs: seq<Request>): Accountant {
    if reqs == [] then acc
    else
      var before := Run(m, acc, reqs[..|reqs| - 1]);
      var last := reqs[|reqs| - 1];
      if Admits(m, before, last) then Charged(before, last) else before
  }

  /** The requests of the run that were admitted, in order. */
  ghost function Ledger(m: Analysis, acc: Accountant, reqs: seq<Request>): seq<Request> {
    if reqs == [] then []
    else
      var init, last := reqs[..|reqs| - 1], reqs[|reqs| - 1];
      if Admits(m, Run(m, acc, init), last) then Ledger(m, acc, init) + [last] else Ledger(m, acc, init)
  }

  function Total(ledger: seq<Request>): PrivacyBudget {
    if ledger == [] then PrivacyBudget(0.0, 0.0)
    else Plus(Total(ledger[..|ledger| - 1]), ledger[|ledger| - 1].cost)
  }

  /** Sum of the RDP costs of a ledger at one order; untracked requests and missing orders count 0. */
  function RdpTotal(ledger: seq<Request>, a: real): real {
    if ledger == [] then 0.0
    else
      var last := ledger[|ledger| - 1];
      RdpTotal(ledger[..|ledger| - 1], a) + (if last.rdp.Some? then At(last.rdp.value, a) else 0.0)
  }

  /** Event `k` repeats request `k` and runs from the total before it to the total after it. */
  ghost predicate Entry(e: Event, ledger: seq<Request>, k: nat)
    requires k < |ledger|
  {
    && e.id == ledger[k].id && e.cost == ledger[k].cost && e.rdpTracked == ledger[k].rdp.Some?
    && e.before == Total(ledger[..k]) && e.after == Total(ledger[..k + 1])
  }

  ghost predicate Telescopes(events: seq<Event>, ledger: seq<Request>) {
    && |events| == |ledger|
    && forall k {:trigger Entry(events[k], ledger, k)} :: 0 <= k < |events| ==> Entry(events[k], ledger, k)
  }

  /** Delta fits, and epsilon fits in one of the two regimes; the second only while RDP is complete. */
  ghost predicate WithinLimit(m: Analysis, acc: Accountant) {
    && ValidOrders(acc.rdpTotals)
    && acc.spent.delta <= acc.limit.delta + TOLERANCE
    && (|| acc.spent.epsilon <= acc.limit.epsilon + TOLERANCE
        || (&& acc.rdpComplete && acc.limit.delta > 0.0
            && RdpFits(m, acc.rdpTotals, acc.limit.delta, acc.limit.epsilon + TOLERANCE)))
  }

  /** The accountant is exactly the account of its ledger, and the ledger was admissible. */
  ghost predicate Accounted(m: Analysis, acc: Accountant, ledger: seq<Request>) {
    && WithinLimit(m, acc)
    && acc.spent == Total(ledger)
    && (acc.rdpComplete <==> forall k :: 0 <= k < |ledger| ==> ledger[k].rdp.Some?)
    && (forall a :: At(acc.rdpTotals, a) == RdpTotal(ledger, a))
    && Telescopes(acc.events, ledger)
  }

  lemma EntryExtends(e: Event, ledger: seq<Request>, req: Request, k: nat)
    requires k < |ledger| && Entry(e, ledger, k)
    ensures Entry(e, ledger + [req], k)
  {
    assert (ledger + [req])[..k] == ledger[..k];
    assert (ledger + [req])[..k + 1] == ledger[..k + 1];
  }

  lemma TotalOfLast(ledger: seq<Request>, req: Request)
    ensures Total(ledger + [req]) == Plus(Total(ledger), req.cost)
  {
    assert (ledger + [req])[..|ledger|] == ledger;
  }

  lemma ChargeTelescopes(acc: Accountant, ledger: seq<Request>, req: Request)
    requires Telescopes(acc.events, ledger) && acc.spent == Total(ledger)
    ensures Telescopes(Charged(acc, req).events, ledger + [req])
    ensures Charged(acc, req).spent == Total(ledger + [req])
  {
    var ledger', events', n := ledger + [req], Charged(acc, req).events, |ledger|;
    TotalOfLast(ledger, req);
    forall k | 0 <= k < n + 1 ensures Entry(events'[k], ledger', k) {
      if k < n {
        assert Entry(acc.events[k], ledger, k);
        EntryExtends(acc.events[k], ledger, req, k);
      } else {
        assert ledger'[..n] == ledger && ledger'[..n + 1] == ledger';
      }
    }
  }

  /**
   * The ledger entries chain: the first starts at zero, each starts where its predecessor ended, the last ends at
   * spent.
   */
  lemma EventsChain(m: Analysis, acc: Accountant, ledger: seq<Request>)
    requires Accounted(m, acc, ledger)
    ensures acc.events != [] ==> acc.events[0].before == PrivacyBudget(0.0, 0.0)
    ensures acc.events != [] ==> acc.events[|acc.events| - 1].after == acc.spent
    ensures forall k :: 0 < k < |acc.events| ==> acc.events[k].before == acc.events[k - 1].after
    ensures forall k :: 0 <= k < |acc.events| ==> acc.events[k].after == Plus(acc.events[k].before, acc.events[k].cost)
  {
    var events := acc.events;
    if events != [] {
      assert Entry(events[0], ledger, 0) && Entry(events[|events| - 1], ledger, |events| - 1);
      assert ledger[..|ledger|] == ledger && ledger[..0] == [];
    }
    forall k | 0 < k < |events| ensures events[k].before == events[k - 1].after {
      assert Entry(events[k], ledger, k) && Entry(events[k - 1], ledger, k - 1);
    }
    forall k | 0 <= k < |events| ensures events[k].after == Plus(events[k].before, events[k].cost) {
      assert Entry(events[k], ledger, k);
      assert ledger[..k + 1] == ledger[..k] + [ledger[k]];
      TotalOfLast(ledger[..k], ledger[k]);
    }
  }

  /** One admitted charge keeps the account exact and within the limit, with the same slack as before. */
  lemma ChargeKeepsAccount(m: Analysis, acc: Accountant, ledger: seq<Request>, req: Request)
    requires Accounted(m, acc, ledger) && Admits(m, acc, req)
    ensures Accounted(m, Charged(acc, req), ledger + [req])
  {
    var acc', ledger' := Charged(acc, req), ledger + [req];
    ChargeTelescopes(acc, ledger, req);
    assert ledger'[..|ledger|] == ledger;
    assert ledger'[|ledger|] == req;
    forall a ensures At(acc'.rdpTotals, a) == RdpTotal(ledger', a) {
      assert At(acc.rdpTotals, a) == RdpTotal(ledger, a);
    }
    assert acc'.rdpComplete <==> forall k :: 0 <= k < |ledger'| ==> ledger'[k].rdp.Some?;
  }

  /**
   * Over every run of charges on a new accountant: spent totals, RDP totals, completeness flag and event chain are
   * exactly those of the admitted requests, and the limit holds up to one tolerance however many charges ran.
   */
  lemma {:induction false} RunIsAccounted(m: Analysis, limit: PrivacyBudget, reqs: seq<Request>)
    requires limit.epsilon >= 0.0 && limit.delta >= 0.0
    ensures Accounted(m, Run(m, Fresh(limit), reqs), Ledger(m, Fresh(limit), reqs))
  {
    if reqs != [] {
      var init, last := reqs[..|reqs| - 1], reqs[|reqs| - 1];
      RunIsAccounted(m, limit, init);
      var before := Run(m, Fresh(limit), init);
      if Admits(m, before, last) {
        ChargeKeepsAccount(m, before, Ledger(m, Fresh(limit), init), last);
      }
    }
  }

  // ---- a refusal is final ----

  /** A non-empty set of usable RDP orders. */
  ghost predicate OrderSet(orders: set<real>) {
    orders != {} && forall a :: a in orders ==> a > 1.0
  }

  /** Non-negative costs over exactly the orders `orders`, all above 1. */
  ghost predicate OverOrders(req: Request, orders: set<real>) {
    && req.cost.epsilon >= 0.0 && req.cost.delta >= 0.0
    && (req.rdp.Some? ==>
          && req.rdp.value.Keys == orders
          && forall a :: a in orders ==> a > 1.0 && req.rdp.value[a] >= 0.0)
  }

  ghost predicate TotalsOver(acc: Accountant, orders: set<real>) {
    (acc.rdpTotals.Keys == {} || acc.rdpTotals.Keys == orders) && ValidOrders(acc.rdpTotals)
  }

  /** `later` has spent at least as much in every respect. */
  ghost predicate SpentMore(acc: Accountant, later: Accountant) {
    && later.limit == acc.limit
    && acc.spent.epsilon <= later.spent.epsilon && acc.spent.delta <= later.spent.delta
    && (later.rdpComplete ==> acc.rdpComplete)
    && forall a :: At(acc.rdpTotals, a) <= At(later.rdpTotals, a)
  }

  lemma ChargeSpendsMore(acc: Accountant, req: Request, orders: set<real>)
    requires OverOrders(req, orders) && TotalsOver(acc, orders)
    ensures SpentMore(acc, Charged(acc, req)) && TotalsOver(Charged(acc, req), orders)
  {
    forall a ensures At(acc.rdpTotals, a) <= At(Charged(acc, req).rdpTotals, a) {
    }
    if req.rdp.Some? {
      assert acc.rdpTotals.Keys + req.rdp.value.Keys == orders;
    }
  }

  lemma {:induction false} RunSpendsMore(m: Analysis, acc: Accountant, reqs: seq<Request>, orders: set<real>)
    requires TotalsOver(acc, orders) && forall k :: 0 <= k < |reqs| ==> OverOrders(reqs[k], orders)
    ensures SpentMore(acc, Run(m, acc, reqs)) && TotalsOver(Run(m, acc, reqs), orders)
  {
    if reqs != [] {
      var init, last := reqs[..|reqs| - 1], reqs[|reqs| - 1];
      RunSpendsMore(m, acc, init, orders);
      var before := Run(m, acc, init);
      assert OverOrders(last, orders);
      if Admits(m, before, last) {
        ChargeSpendsMore(before, last, orders);
        forall a ensures At(acc.rdpTotals, a) <= At(Charged(before, last).rdpTotals, a) {
          assert At(acc.rdpTotals, a) <= At(before.rdpTotals, a);
        }
      }
    }
  }

  lemma LargerTotalsFitLess(m: Analysis, now: RdpCost, then_: RdpCost, delta: real, bound: real)
    requires ValidOrders(then_) && now.Keys == then_.Keys && delta > 0.0
    requires forall a :: a in now ==> now[a] <= then_[a]
    ensures RdpFits(m, then_, delta, bound) ==> RdpFits(m, now, delta, bound)
  {
    if a :| a in then_ && FitsAt(m, then_[a], a, delta, bound) {
      RaisedBound(bound - then_[a], bound - now[a], a - 1.0, m.ln(1.0 / delta));
      assert FitsAt(m, now[a], a, delta, bound);
    }
  }

  lemma TotalsGrow(acc: Accountant, later: Accountant, rdp: RdpCost, orders: set<real>)
    requires TotalsOver(acc, orders) && TotalsOver(later, orders) && SpentMore(acc, later) && rdp.Keys == orders
    ensures Merge(acc.rdpTotals, rdp).Keys == Merge(later.rdpTotals, rdp).Keys == orders
    ensures forall a :: a in orders ==> Merge(acc.rdpTotals, rdp)[a] <= Merge(later.rdpTotals, rdp)[a]
  {
    forall a | a in orders ensures Merge(acc.rdpTotals, rdp)[a] <= Merge(later.rdpTotals, rdp)[a] {
      assert At(acc.rdpTotals, a) <= At(later.rdpTotals, a);
    }
  }

  lemma RefusalIsMonotone(m: Analysis, acc: Accountant, later: Accountant, req: Request, orders: set<real>)
    requires TotalsOver(acc, orders) && TotalsOver(later, orders) && OverOrders(req, orders)
    requires SpentMore(acc, later) && Refuses(m, acc, req)
    ensures Refuses(m, later, req)
  {
    if req.rdp.Some? && later.rdpComplete && Decide(m, acc, req).regime == Rdp {
      TotalsGrow(acc, later, req.rdp.value, orders);
      LargerTotalsFitLess(m, Merge(acc.rdpTotals, req.rdp.value), Merge(later.rdpTotals, req.rdp.value),
                          acc.limit.delta, acc.limit.epsilon + TOLERANCE);
    }
  }

  // ---- exactly when a refusal is final ----

  /** Requests of a caller whose RDP costs always use one of the order sets in `family`. */
  ghost predicate Drawn(req: Request, family: set<set<real>>) {
    exists orders :: orders in family && OverOrders(req, orders)
  }

  ghost predicate AllDrawn(reqs: seq<Request>, family: set<set<real>>) {
    forall k :: 0 <= k < |reqs| ==> Drawn(reqs[k], family)
  }

  /** Unless refused after `earlier`, or not drawn from the family: `req` is still refused after `later`. */
  ghost predicate StaysRefused(m: Analysis, family: set<set<real>>, limit: PrivacyBudget,
                               earlier: seq<Request>, req: Request, later: seq<Request>) {
    && limit.epsilon >= 0.0 && limit.delta >= 0.0
    && AllDrawn(earlier, family) && AllDrawn(later, family) && Drawn(req, family)
    && Refuses(m, Run(m, Fresh(limit), earlier), req)
    ==> Refuses(m, Run(m, Run(m, Fresh(limit), earlier), later), req)
  }

  /** Whatever is charged before and after, on whatever limit: a refusal is never taken back. */
  ghost predicate RefusalsAreFinal(m: Analysis, family: set<set<real>>) {
    forall limit, earlier, req, later :: StaysRefused(m, family, limit, earlier, req, later)
  }

  /** A charge refused now is refused after any further run over the same orders, fallback included. */
  lemma {:induction false} DenialIsPermanent(m: Analysis, acc: Accountant, req: Request, reqs: seq<Request>,
                                             orders: set<real>)
    requires TotalsOver(acc, orders) && OverOrders(req, orders)
    requires forall k :: 0 <= k < |reqs| ==> OverOrders(reqs[k], orders)
    requires Refuses(m, acc, req)
    ensures Refuses(m, Run(m, acc, reqs), req)
  {
    RunSpendsMore(m, acc, reqs, orders);
    RefusalIsMonotone(m, acc, Run(m, acc, reqs), req, orders);
  }

  lemma OneOrderSetSuffices(m: Analysis, family: set<set<real>>, orders: set<real>)
    requires forall x :: x in family ==> x == orders
    ensures RefusalsAreFinal(m, family)
  {
    forall limit, earlier, req, later ensures StaysRefused(m, family, limit, earlier, req, later) {
      if AllDrawn(earlier, family) && AllDrawn(later, family) && Drawn(req, family)
         && Refuses(m, Run(m, Fresh(limit), earlier), req) {
        RunSpendsMore(m, Fresh(limit), earlier, orders);
        DenialIsPermanent(m, Run(m, Fresh(limit), earlier), req, later, orders);
      }
    }
  }

  /** A cost of `v` at every order of a set. */
  function Constant(orders: set<real>, v: real): RdpCost {
    map a | a in orders :: v
  }

  /** A limit that just covers the conversion overhead at order `b`. */
  function TightLimit(m: Analysis, b: real): PrivacyBudget
    requires b > 1.0
  {
    PrivacyBudget(m.ln(2.0) / (b - 1.0), 0.5)
  }

  function LargeRequest(limit: PrivacyBudget, orders: set<real>): Request {
    Request(PrivacyBudget(limit.epsilon + 1.0, 0.0), Some(Constant(orders, limit.epsilon + 1.0)), "")
  }

  function FreeRequest(orders: set<real>): Request {
    Request(PrivacyBudget(0.0, 0.0), Some(Constant(orders, 0.0)), "")
  }

  lemma PositiveQuotient(x: real, y: real)
    requires x > 0.0 && y > 0.0
    ensures x / y > 0.0
  {
  }

  lemma TightLimitPositive(m: Analysis, b: real)
    requires LawfulAnalysis(m) && b > 1.0
    ensures TightLimit(m, b).epsilon > 0.0
  {
    PositiveQuotient(m.ln(2.0), b - 1.0);
  }

  /** Conversion at delta 1/2 always adds something. */
  lemma ConversionAdds(m: Analysis, a: real, v: real, bound: real)
    requires LawfulAnalysis(m) && a > 1.0 && bound <= v
    ensures !FitsAt(m, v, a, 0.5, bound)
  {
    assert 1.0 / 0.5 == 2.0;
    RaisedBound(bound - v, 0.0, a - 1.0, 0.0);
  }

  lemma LargeRequestRefused(m: Analysis, b: real, A: set<real>)
    requires LawfulAnalysis(m) && OrderSet(A) && b > 1.0
    ensures TightLimit(m, b).epsilon > 0.0 && OverOrders(LargeRequest(TightLimit(m, b), A), A)
    ensures Refuses(m, Fresh(TightLimit(m, b)), LargeRequest(TightLimit(m, b), A))
  {
    var limit := TightLimit(m, b);
    TightLimitPositive(m, b);
    var totals := Merge(map[], Constant(A, limit.epsilon + 1.0));
    assert totals.Keys == A;
    forall a | a in totals ensures !FitsAt(m, totals[a], a, 0.5, limit.epsilon + TOLERANCE) {
      ConversionAdds(m, a, totals[a], limit.epsilon + TOLERANCE);
    }
  }

  lemma FreeRequestAdmitted(m: Analysis, limit: PrivacyBudget, B: set<real>)
    requires OrderSet(B) && limit.epsilon >= 0.0 && limit.delta == 0.5
    ensures OverOrders(FreeRequest(B), B) && Admits(m, Fresh(limit), FreeRequest(B))
  {
    assert Merge(map[], Constant(B, 0.0)).Keys == B;
  }

  lemma RunOne(m: Analysis, acc: Accountant, req: Request)
    requires Admits(m, acc, req)
    ensures Run(m, acc, [req]) == Charged(acc, req)
  {
    assert [req][..0] == [];
    assert Run(m, acc, []) == acc;
  }

  /**
   * Two order sets break finality: with b in B but not in A, a large A-charge is refused on a limit that just
   * covers the conversion overhead at b; after a free B-charge the same request is admitted at order b.
   */
  lemma MixedOrdersUndoRefusal(m: Analysis, A: set<real>, B: set<real>, b: real)
    requires LawfulAnalysis(m) && OrderSet(A) && OrderSet(B) && b in B && b !in A
    ensures var limit := TightLimit(m, b);
            && Refuses(m, Fresh(limit), LargeRequest(limit, A))
            && Admits(m, Run(m, Fresh(limit), [FreeRequest(B)]), LargeRequest(limit, A))
  {
    var limit := TightLimit(m, b);
    LargeRequestRefused(m, b, A);
    FreeRequestAdmitted(m, limit, B);
    RunOne(m, Fresh(limit), FreeRequest(B));
    var totals := Merge(Merge(map[], Constant(B, 0.0)), Constant(A, limit.epsilon + 1.0));
    assert b in totals && totals[b] == 0.0;
    assert 1.0 / 0.5 == 2.0;
    QuotientBelow(m.ln(2.0), b - 1.0, limit.epsilon + TOLERANCE);
    assert FitsAt(m, totals[b], b, 0.5, limit.epsilon + TOLERANCE);
  }

  /** Refusals are final for a caller exactly when all its order sets are one and the same. */
  lemma RefusalsFinalIffOneOrderSet(m: Analysis, family: set<set<real>>)
    requires LawfulAnalysis(m)
    requires forall orders :: orders in family ==> OrderSet(orders)
    ensures RefusalsAreFinal(m, family) <==> forall A, B :: A in family && B in family ==> A == B
  {
    if A, B :| A in family && B in family && A != B {
      if B <= A {
        MixedPairBreaks(m, family, B, A);
      } else {
        MixedPairBreaks(m, family, A, B);
      }
    } else if orders :| orders in family {
      OneOrderSetSuffices(m, family, orders);
    } else {
      OneOrderSetSuffices(m, family, {});
    }
  }

  lemma MixedPairBreaks(m: Analysis, family: set<set<real>>, A: set<real>, B: set<real>)
    requires LawfulAnalysis(m) && A in family && B in family && OrderSet(A) && OrderSet(B) && !(B <= A)
    ensures !RefusalsAreFinal(m, family)
  {
    var b := Outside(B, A);
    MixedOrdersUndoRefusal(m, A, B, b);
    var limit := TightLimit(m, b);
    var req, free := LargeRequest(limit, A), FreeRequest(B);
    LargeRequestRefused(m, b, A);
    FreeRequestAdmitted(m, limit, B);
    assert Drawn(req, family) && Drawn(free, family);
    assert Run(m, Fresh(limit), []) == Fresh(limit);
    assert !StaysRefused(m, family, limit, [], req, [free]);
  }
}
