/**
 * The reserve-excess decision of the index strategy: which reserve underlyer
 * holds more than its rebalance target, and which of those to deploy next.
 */
module Strategy {
  import opened Errors
  import opened Tokens
  import FixedPoint
  import Sequences
  import Selection

  /** A reserve registry entry: the reserve's underlying token and that token's decimals. */
  datatype Reserve = Reserve(underlyer: Address, decimals: nat)

  /** Reserve address to its entry (the `RESERVE_POOLS` configuration). */
  type Registry = map<Address, Reserve>

  /** Underlyer address to its balance, as read from chain for one decision cycle. */
  type Balances = map<Address, int>

  /** One rebalance target resolved against the registry and the balances. */
  datatype Excess = Excess(underlyer: Address, amount: int, decimals: nat)

  /** The registry knows the target's reserve and the balances know that reserve's underlyer. */
  ghost predicate Resolvable(registry: Registry, balances: Balances, target: TokenAmount)
  {
    target.address in registry && registry[target.address].underlyer in balances
  }

  ghost predicate AllResolvable(registry: Registry, balances: Balances, targets: seq<TokenAmount>)
  {
    forall i :: 0 <= i < |targets| ==> Resolvable(registry, balances, targets[i])
  }

  /** Reference: the underlyer of a target's reserve. */
  ghost function UnderlyerOf(registry: Registry, target: TokenAmount): Address
    requires target.address in registry
  {
    registry[target.address].underlyer
  }

  /** Reference: the underlyer's balance minus the target's rebalance amount. */
  ghost function NetExcessOf(registry: Registry, balances: Balances, target: TokenAmount): int
    requires Resolvable(registry, balances, target)
  {
    balances[UnderlyerOf(registry, target)] - target.amount
  }

  /** Reference: that net excess expressed at `decimals` decimals. */
  ghost function NormalizedExcessOf(registry: Registry, balances: Balances, target: TokenAmount, decimals: nat): int
    requires Resolvable(registry, balances, target)
  {
    FixedPoint.Rescale(NetExcessOf(registry, balances, target), registry[target.address].decimals, decimals)
  }

  /** Resolves one target; an unknown reserve or an untracked underlyer is an error, never zero. */
  function ResolveTarget(registry: Registry, balances: Balances, target: TokenAmount): (r: Result<Excess>)
    ensures r.Ok? <==> Resolvable(registry, balances, target)
    ensures target.address !in registry ==> r == Err(UnknownReserve(target.address))
    ensures target.address in registry && !Resolvable(registry, balances, target) ==>
              r == Err(MissingBalance(UnderlyerOf(registry, target)))
    ensures r.Err? ==> Class(r.error) == TypeError
    ensures r.Ok? ==> && r.value.underlyer == UnderlyerOf(registry, target)
                      && r.value.amount == NetExcessOf(registry, balances, target)
                      && r.value.decimals == registry[target.address].decimals
  {
    if target.address !in registry then Err(UnknownReserve(target.address))
    else
      var reserve := registry[target.address];
      if reserve.underlyer !in balances then Err(MissingBalance(reserve.underlyer))
      else Ok(Excess(reserve.underlyer, balances[reserve.underlyer] - target.amount, reserve.decimals))
  }

  /** Resolves every target in order; the first target that fails decides the error. */
  function Resolve(registry: Registry, balances: Balances, targets: seq<TokenAmount>): (r: Result<seq<Excess>>)
    ensures r.Ok? <==> AllResolvable(registry, balances, targets)
    ensures r.Ok? ==> && |r.value| == |targets|
                      && forall i :: 0 <= i < |targets| ==> ResolveTarget(registry, balances, targets[i]) == Ok(r.value[i])
    ensures r.Err? ==> exists i :: && 0 <= i < |targets|
                                   && ResolveTarget(registry, balances, targets[i]) == Err(r.error)
                                   && forall j :: 0 <= j < i ==> Resolvable(registry, balances, targets[j])
    decreases |targets|
  {
    if |targets| == 0 then Ok([])
    else
      var first :- ResolveTarget(registry, balances, targets[0]);
      var rest :- Resolve(registry, balances, targets[1..]);
      Ok([first] + rest)
  }

  /** Which resolved targets count as in excess: a net excess that is not negative. */
  function Kept(excesses: seq<Excess>): seq<bool>
  {
    seq(|excesses|, i requires 0 <= i < |excesses| => excesses[i].amount >= 0)
  }

  function AsTokenAmounts(excesses: seq<Excess>): seq<TokenAmount>
  {
    seq(|excesses|, i requires 0 <= i < |excesses| => TokenAmount(excesses[i].underlyer, excesses[i].amount))
  }

  function Normalized(excesses: seq<Excess>, decimals: nat): seq<TokenAmount>
  {
    seq(|excesses|, i requires 0 <= i < |excesses| =>
      TokenAmount(excesses[i].underlyer, FixedPoint.Rescale(excesses[i].amount, excesses[i].decimals, decimals)))
  }

  /** Reference: every target's underlyer paired with its net excess, in target order. */
  ghost function NetExcesses(registry: Registry, balances: Balances, targets: seq<TokenAmount>): seq<TokenAmount>
    requires AllResolvable(registry, balances, targets)
  {
    seq(|targets|, i requires 0 <= i < |targets| && Resolvable(registry, balances, targets[i]) =>
      TokenAmount(UnderlyerOf(registry, targets[i]), NetExcessOf(registry, balances, targets[i])))
  }

  /** Reference: which targets have a non-negative net excess. */
  ghost function InExcess(registry: Registry, balances: Balances, targets: seq<TokenAmount>): seq<bool>
    requires AllResolvable(registry, balances, targets)
  {
    seq(|targets|, i requires 0 <= i < |targets| && Resolvable(registry, balances, targets[i]) =>
      NetExcessOf(registry, balances, targets[i]) >= 0)
  }

  lemma ResolvedMatchesReference(registry: Registry, balances: Balances, targets: seq<TokenAmount>, es: seq<Excess>)
    requires Resolve(registry, balances, targets) == Ok(es)
    ensures AllResolvable(registry, balances, targets)
    ensures AsTokenAmounts(es) == NetExcesses(registry, balances, targets)
    ensures Kept(es) == InExcess(registry, balances, targets)
  {
  }

  /**
   * `getUnderlyersWithNetExcess`: for each target, the underlyer (not the
   * reserve) with balance minus rebalance amount, keeping exactly the
   * non-negative ones in target order.
   */
  function GetUnderlyersWithNetExcess(registry: Registry, targets: seq<TokenAmount>, balances: Balances)
    : (r: Result<seq<TokenAmount>>)
    ensures r.Ok? <==> AllResolvable(registry, balances, targets)
    ensures r.Err? ==> Class(r.error) == TypeError
    ensures r.Ok? ==> r.value == Sequences.Select(NetExcesses(registry, balances, targets),
                                                  Sequences.Positions(InExcess(registry, balances, targets)))
  {
    var es :- Resolve(registry, balances, targets);
    ResolvedMatchesReference(registry, balances, targets, es);
    Sequences.FilterIsSelect(AsTokenAmounts(es), Kept(es));
    Ok(Sequences.Filter(AsTokenAmounts(es), Kept(es)))
  }

  /** Target `i` has the largest normalised net excess among the targets in excess, and no earlier one ties it. */
  ghost predicate IsLargestNetExcess(registry: Registry, balances: Balances, targets: seq<TokenAmount>, decimals: nat, i: int)
    requires AllResolvable(registry, balances, targets)
  {
    && 0 <= i < |targets|
    && NetExcessOf(registry, balances, targets[i]) >= 0
    && (forall j :: 0 <= j < |targets| && NetExcessOf(registry, balances, targets[j]) >= 0 ==>
          NormalizedExcessOf(registry, balances, targets[j], decimals) <= NormalizedExcessOf(registry, balances, targets[i], decimals))
    && (forall j :: 0 <= j < i && NetExcessOf(registry, balances, targets[j]) >= 0 ==>
          NormalizedExcessOf(registry, balances, targets[j], decimals) < NormalizedExcessOf(registry, balances, targets[i], decimals))
  }

  /** Entry `m` of the filtered, normalised list is the `m`-th target in excess, normalised. */
  lemma NormalizedFilteredAt(registry: Registry, balances: Balances, targets: seq<TokenAmount>, decimals: nat,
                             es: seq<Excess>, m: int)
    requires Resolve(registry, balances, targets) == Ok(es)
    requires 0 <= m < |Sequences.Positions(Kept(es))|
    ensures AllResolvable(registry, balances, targets)
    ensures Sequences.Positions(Kept(es))[m] < |targets|
    ensures |Sequences.Filter(es, Kept(es))| == |Sequences.Positions(Kept(es))|
    ensures Normalized(Sequences.Filter(es, Kept(es)), decimals)[m] ==
              TokenAmount(UnderlyerOf(registry, targets[Sequences.Positions(Kept(es))[m]]),
                          NormalizedExcessOf(registry, balances, targets[Sequences.Positions(Kept(es))[m]], decimals))
  {
    var P := Sequences.Positions(Kept(es));
    var kept := Sequences.Filter(es, Kept(es));
    Sequences.FilterIsSelect(es, Kept(es));
    var t := P[m];
    assert kept[m] == es[t];
    assert ResolveTarget(registry, balances, targets[t]) == Ok(es[t]);
  }

  /** The argmax over the filtered, normalised list picks the first largest target in excess. */
  lemma FirstLargestOfFiltered(registry: Registry, balances: Balances, targets: seq<TokenAmount>, decimals: nat,
                               es: seq<Excess>, k: int)
    requires Resolve(registry, balances, targets) == Ok(es)
    requires Selection.IsFirstLargest(Normalized(Sequences.Filter(es, Kept(es)), decimals), k)
    ensures AllResolvable(registry, balances, targets)
    ensures 0 <= k < |Sequences.Positions(Kept(es))|
    ensures IsLargestNetExcess(registry, balances, targets, decimals, Sequences.Positions(Kept(es))[k])
  {
    var P := Sequences.Positions(Kept(es));
    var n := Normalized(Sequences.Filter(es, Kept(es)), decimals);
    Sequences.FilterIsSelect(es, Kept(es));
    assert |n| == |P|;
    var i := P[k];
    NormalizedFilteredAt(registry, balances, targets, decimals, es, k);
    assert ResolveTarget(registry, balances, targets[i]) == Ok(es[i]);
    assert Kept(es)[i];
    forall j | 0 <= j < |targets| && NetExcessOf(registry, balances, targets[j]) >= 0
      ensures NormalizedExcessOf(registry, balances, targets[j], decimals) <= NormalizedExcessOf(registry, balances, targets[i], decimals)
      ensures j < i ==> NormalizedExcessOf(registry, balances, targets[j], decimals) < NormalizedExcessOf(registry, balances, targets[i], decimals)
    {
      assert ResolveTarget(registry, balances, targets[j]) == Ok(es[j]);
      assert Kept(es)[j];
      var m :| 0 <= m < |P| && P[m] == j;
      NormalizedFilteredAt(registry, balances, targets, decimals, es, m);
      assert n[m].amount <= n[k].amount;
      assert j < i ==> m < k;
    }
  }

  /**
   * `getLargestNetExcess`: among the targets in excess, the one whose net
   * excess, normalised to `decimals` decimals, is largest (the first on a
   * tie), reported with that normalised amount.
   */
  function GetLargestNetExcess(registry: Registry, targets: seq<TokenAmount>, balances: Balances, decimals: nat)
    : (r: Result<TokenAmount>)
    ensures !AllResolvable(registry, balances, targets) ==> r.Err? && Class(r.error) == TypeError
    ensures AllResolvable(registry, balances, targets) ==>
              (r.Err? <==> forall i :: 0 <= i < |targets| ==> NetExcessOf(registry, balances, targets[i]) < 0)
    ensures AllResolvable(registry, balances, targets) && r.Err? ==> r.error == EmptyAmounts
    ensures r.Ok? ==> && AllResolvable(registry, balances, targets)
                      && exists i :: && IsLargestNetExcess(registry, balances, targets, decimals, i)
                                     && r.value.address == UnderlyerOf(registry, targets[i])
                                     && r.value.amount == NormalizedExcessOf(registry, balances, targets[i], decimals)
    ensures r.Ok? ==> r.value.address in balances
  {
    var es :- Resolve(registry, balances, targets);
    var kept := Sequences.Filter(es, Kept(es));
    var largest := Selection.GetLargestAmount(Normalized(kept, decimals));
    LargestNetExcessFacts(registry, targets, balances, decimals, es, largest);
    largest
  }

  lemma LargestNetExcessFacts(registry: Registry, targets: seq<TokenAmount>, balances: Balances, decimals: nat,
                              es: seq<Excess>, largest: Result<TokenAmount>)
    requires Resolve(registry, balances, targets) == Ok(es)
    requires largest == Selection.GetLargestAmount(Normalized(Sequences.Filter(es, Kept(es)), decimals))
    ensures AllResolvable(registry, balances, targets)
    ensures largest.Err? <==> forall i :: 0 <= i < |targets| ==> NetExcessOf(registry, balances, targets[i]) < 0
    ensures largest.Ok? ==> exists i :: && IsLargestNetExcess(registry, balances, targets, decimals, i)
                                        && largest.value.address == UnderlyerOf(registry, targets[i])
                                        && largest.value.amount == NormalizedExcessOf(registry, balances, targets[i], decimals)
    ensures largest.Ok? ==> largest.value.address in balances
  {
    var P := Sequences.Positions(Kept(es));
    Sequences.FilterIsSelect(es, Kept(es));
    if largest.Ok? {
      var k :| Selection.IsFirstLargest(Normalized(Sequences.Filter(es, Kept(es)), decimals), k)
               && largest.value == Normalized(Sequences.Filter(es, Kept(es)), decimals)[k];
      FirstLargestOfFiltered(registry, balances, targets, decimals, es, k);
      NormalizedFilteredAt(registry, balances, targets, decimals, es, k);
      var i := P[k];
      assert IsLargestNetExcess(registry, balances, targets, decimals, i);
    } else {
      assert |P| == 0;
      forall i | 0 <= i < |targets|
        ensures NetExcessOf(registry, balances, targets[i]) < 0
      {
        assert ResolveTarget(registry, balances, targets[i]) == Ok(es[i]);
        assert Kept(es)[i] ==> i in P;
      }
    }
  }

  /**
   * `getNextBalanceAmount`: the underlyer chosen by `getLargestNetExcess`,
   * paired with that underlyer's balance.
   */
  function GetNextBalanceAmount(registry: Registry, targets: seq<TokenAmount>, balances: Balances, decimals: nat)
    : (r: Result<TokenAmount>)
    ensures r.Ok? <==> && AllResolvable(registry, balances, targets)
                       && exists i :: 0 <= i < |targets| && NetExcessOf(registry, balances, targets[i]) >= 0
    ensures AllResolvable(registry, balances, targets) && r.Err? ==> r.error == EmptyAmounts
    ensures !AllResolvable(registry, balances, targets) ==> r.Err? && Class(r.error) == TypeError
    ensures r.Ok? ==> && r.value.address in balances
                      && r.value.amount == balances[r.value.address]
                      && exists i :: && IsLargestNetExcess(registry, balances, targets, decimals, i)
                                     && r.value.address == UnderlyerOf(registry, targets[i])
  {
    var largest :- GetLargestNetExcess(registry, targets, balances, decimals);
    Ok(TokenAmount(largest.address, balances[largest.address]))
  }
}
