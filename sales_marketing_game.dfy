/** The sales & marketing turn simulation (frontend/data/sales_marketing_game.js).
    The script's module-level variables are the fields of a `SalesGame`; the
    three buttons are its action methods, each of which ends the turn. The
    floating-point rates become exact integer floor divisions, and the random
    organic growth is a choice the model leaves open within its bounds. */
module SalesMarketingGame {

  datatype Segment = NewPlayers | Grinders | Minnows | Dolphins | Whales | LapsedPlayers

  /** The order in which `for...in` visits the segment object's keys. */
  const SegmentOrder: seq<Segment> := [NewPlayers, Grinders, Minnows, Dolphins, Whales, LapsedPlayers]

  /** Where a segment stands in `SegmentOrder`. */
  function Position(s: Segment): (k: nat)
    ensures k < |SegmentOrder| && SegmentOrder[k] == s
  {
    match s
    case NewPlayers => 0
    case Grinders => 1
    case Minnows => 2
    case Dolphins => 3
    case Whales => 4
    case LapsedPlayers => 5
  }

  /** `Position` and `SegmentOrder` are inverse: the order lists every
      segment exactly once. */
  lemma PositionOfIndex(i: nat)
    requires i < |SegmentOrder|
    ensures Position(SegmentOrder[i]) == i
  {
  }

  /** The user counts per segment. */
  type Segments = map<Segment, int>

  /** Every segment has a count. */
  predicate Complete(m: Segments)
  {
    forall s: Segment :: s in m
  }

  const InitialSegments: Segments := map[
    NewPlayers := 1000, Grinders := 2000, Minnows := 500,
    Dolphins := 100, Whales := 10, LapsedPlayers := 500]

  /** The script's starting counts: one for every segment, 4110 in all. */
  lemma InitialSegmentsComplete()
    ensures Complete(InitialSegments) && AllNonNegative(InitialSegments)
    ensures TotalUsers(InitialSegments) == 4110
  {
    forall s: Segment
      ensures s in InitialSegments && InitialSegments[s] >= 0
    {
      match s
      case NewPlayers =>
      case Grinders =>
      case Minnows =>
      case Dolphins =>
      case Whales =>
      case LapsedPlayers =>
    }
  }

  /** `updateTotalUsers`: the sum of all segment counts. */
  function TotalUsers(m: Segments): int
    requires Complete(m)
  {
    m[NewPlayers] + m[Grinders] + m[Minnows] + m[Dolphins] + m[Whales] + m[LapsedPlayers]
  }

  predicate AllNonNegative(m: Segments)
    requires Complete(m)
  {
    forall s: Segment :: m[s] >= 0
  }

  // ---------------------------------------------------------------------
  // The rates, as integer floor divisions
  // ---------------------------------------------------------------------

  /** Grinders converted by a campaign: floor(grinders * 0.1). */
  function Converted(grinders: int): (c: int)
    ensures grinders >= 0 ==> 0 <= c <= grinders
    ensures 10 * c <= grinders < 10 * c + 10
  {
    grinders / 10
  }

  /** Revenue of the discount offer: 25 per purchase, floor(dolphins * 0.5) purchases. */
  function DiscountRevenue(dolphins: int): (r: int)
    ensures dolphins >= 0 ==> 0 <= r && 2 * r <= 25 * dolphins
  {
    25 * (dolphins / 2)
  }

  /** Revenue of the subscription drive: 15 per subscriber, floor(whales * 0.8) subscribers. */
  function SubscriptionRevenue(whales: int): (r: int)
    ensures whales >= 0 ==> 0 <= r && r <= 12 * whales
  {
    15 * (whales * 8 / 10)
  }

  /** Users one segment of `n` loses to churn at the given retention:
      floor(n * (100 - retention) / 2000). Dafny's `/` by a positive divisor
      rounds toward negative infinity, as `Math.floor` does, so a retention
      above 100 gives a negative churn here as in the script. */
  function Churn(n: int, retention: int): (c: int)
    ensures 0 <= n && -1900 <= retention <= 100 ==> 0 <= c <= n
    ensures 0 < n && 100 < retention ==> c < 0
  {
    ChurnBounds(n, retention);
    n * (100 - retention) / 2000
  }

  lemma ChurnBounds(n: int, retention: int)
    ensures 0 <= n && -1900 <= retention <= 100 ==>
      0 <= n * (100 - retention) / 2000 <= n
    ensures 0 < n && 100 < retention ==> n * (100 - retention) / 2000 < 0
  {
    var d := 100 - retention;
    var p := n * d;
    var q := p / 2000;
    assert 2000 * q <= p < 2000 * q + 2000;
    if 0 <= n && 0 <= d <= 2000 {
      assert n * (2000 - d) >= 0;
      assert 0 <= p <= 2000 * n;
    }
    if 0 < n && d < 0 {
      assert n * (-d - 1) >= 0;
      assert p <= -n;
    }
  }

  // ---------------------------------------------------------------------
  // The steps of a turn, as functions of the segment counts
  // ---------------------------------------------------------------------

  /** The campaign's conversion of grinders into minnows. */
  function Campaign(m: Segments): (r: Segments)
    requires Complete(m)
    ensures Complete(r)
  {
    var c := Converted(m[Grinders]);
    m[Grinders := m[Grinders] - c][Minnows := m[Minnows] + c]
  }

  /** One iteration of the churn loop of `advanceTurn`: a segment other than
      the lapsed players loses its churn, and the lapsed players gain it. */
  function ChurnStep(m: Segments, s: Segment, retention: int): (r: Segments)
    requires Complete(m)
    ensures Complete(r)
  {
    if s == LapsedPlayers then m
    else
      var churned := Churn(m[s], retention);
      var m' := m[s := m[s] - churned];
      m'[LapsedPlayers := m'[LapsedPlayers] + churned]
  }

  /** The counts after the churn loop has visited the first `k` segments of
      the key order. */
  function ChurnFirst(m: Segments, retention: int, k: nat): (r: Segments)
    requires Complete(m) && k <= |SegmentOrder|
    ensures Complete(r)
  {
    if k == 0 then m
    else ChurnStep(ChurnFirst(m, retention, k - 1), SegmentOrder[k - 1], retention)
  }

  /** The counts after the whole churn loop. */
  function AfterChurn(m: Segments, retention: int): (r: Segments)
    requires Complete(m)
    ensures Complete(r)
  {
    ChurnFirst(m, retention, |SegmentOrder|)
  }

  /** Churn followed by the organic growth of the new players. */
  function AfterTurn(m: Segments, retention: int, growth: int): (r: Segments)
    requires Complete(m)
    ensures Complete(r)
  {
    var c := AfterChurn(m, retention);
    c[NewPlayers := c[NewPlayers] + growth]
  }

  /** How the game stands after the end-of-turn check. */
  datatype Outcome = Playing | Won | Lost

  /** The end-of-turn check: reaching a revenue of 1,000,000 wins; otherwise
      at most 100 users with negative revenue loses. */
  function Verdict(revenue: int, totalUsers: int): (o: Outcome)
    ensures o == Won <==> revenue >= 1000000
    ensures o == Lost <==> totalUsers <= 100 && revenue < 0
    ensures o == Playing <==> revenue < 1000000 && (totalUsers > 100 || revenue >= 0)
  {
    if revenue >= 1000000 then Won
    else if totalUsers <= 100 && revenue < 0 then Lost
    else Playing
  }

  // ---------------------------------------------------------------------
  // Properties of the steps
  // ---------------------------------------------------------------------

  /** Each step of the churn loop moves users between two segments, so
      the total is conserved after any number of steps. */
  lemma {:induction false} ChurnFirstConservesUsers(m: Segments, retention: int, k: nat)
    requires Complete(m) && k <= |SegmentOrder|
    ensures TotalUsers(ChurnFirst(m, retention, k)) == TotalUsers(m)
  {
    if k > 0 {
      ChurnFirstConservesUsers(m, retention, k - 1);
    }
  }

  /** After `k` steps, a segment other than the lapsed players has lost its
      churn -- computed from its count before the loop -- iff the loop has
      already visited it; otherwise it is untouched. */
  lemma {:induction false} ChurnFirstAt(m: Segments, retention: int, k: nat, s: Segment)
    requires Complete(m) && k <= |SegmentOrder| && s != LapsedPlayers
    ensures ChurnFirst(m, retention, k)[s] ==
      if Position(s) < k then m[s] - Churn(m[s], retention) else m[s]
  {
    if k > 0 {
      ChurnFirstAt(m, retention, k - 1, s);
      PositionOfIndex(k - 1);
    }
  }

  /** Churn moves users into the lapsed players: every other segment loses
      exactly its own churn, the lapsed players gain the sum, and the total
      is conserved. */
  lemma ChurnMovesUsersToLapsed(m: Segments, retention: int)
    requires Complete(m)
    ensures TotalUsers(AfterChurn(m, retention)) == TotalUsers(m)
    ensures forall s :: s != LapsedPlayers ==>
      AfterChurn(m, retention)[s] == m[s] - Churn(m[s], retention)
    ensures AfterChurn(m, retention)[LapsedPlayers] == m[LapsedPlayers] +
      Churn(m[NewPlayers], retention) + Churn(m[Grinders], retention) +
      Churn(m[Minnows], retention) + Churn(m[Dolphins], retention) +
      Churn(m[Whales], retention)
  {
    ChurnFirstConservesUsers(m, retention, |SegmentOrder|);
    forall s | s != LapsedPlayers
      ensures AfterChurn(m, retention)[s] == m[s] - Churn(m[s], retention)
    {
      ChurnFirstAt(m, retention, |SegmentOrder|, s);
    }
  }

  /** While retention is at most 100 (and the script only raises it from 80),
      every segment loses between none and all of its users to churn, so no
      segment goes negative. */
  lemma ChurnKeepsCountsNonNegative(m: Segments, retention: int)
    requires Complete(m) && AllNonNegative(m)
    requires 80 <= retention <= 100
    ensures AllNonNegative(AfterChurn(m, retention))
    ensures forall s :: s != LapsedPlayers ==> AfterChurn(m, retention)[s] <= m[s]
    ensures AfterChurn(m, retention)[LapsedPlayers] >= m[LapsedPlayers]
  {
    ChurnMovesUsersToLapsed(m, retention);
  }

  /** Above a retention of 100 the churn runs backwards: users leave the
      lapsed players, which can then hold a negative count. The witness is a
      constructed state: the starting counts with no lapsed players, churned
      at retention 101. */
  lemma RetentionAboveHundredDrivesLapsedNegative()
    ensures Complete(InitialSegments[LapsedPlayers := 0])
    ensures AfterChurn(InitialSegments[LapsedPlayers := 0], 101)[LapsedPlayers] < 0
  {
    InitialSegmentsComplete();
    var m := InitialSegments[LapsedPlayers := 0];
    ChurnMovesUsersToLapsed(m, 101);
    assert Churn(m[Grinders], 101) == -1;
  }

  /** The campaign moves floor(grinders / 10) grinders to the minnows and
      conserves the total. */
  lemma CampaignConservesUsers(m: Segments)
    requires Complete(m)
    ensures TotalUsers(Campaign(m)) == TotalUsers(m)
    ensures Campaign(m)[Grinders] == m[Grinders] - Converted(m[Grinders])
    ensures Campaign(m)[Minnows] == m[Minnows] + Converted(m[Grinders])
    ensures forall s :: s != Grinders && s != Minnows ==> Campaign(m)[s] == m[s]
  {
  }

  /** The campaign converts at most all of the grinders, so it keeps every
      count non-negative. */
  lemma CampaignKeepsCountsNonNegative(m: Segments)
    requires Complete(m) && AllNonNegative(m)
    ensures AllNonNegative(Campaign(m))
  {
    CampaignConservesUsers(m);
    forall s: Segment
      ensures Campaign(m)[s] >= 0
    {
      if s != Grinders && s != Minnows {
        assert Campaign(m)[s] == m[s];
      }
    }
  }

  /** A whole turn changes the number of users by exactly the organic growth. */
  lemma TurnAddsGrowth(m: Segments, retention: int, growth: int)
    requires Complete(m)
    ensures TotalUsers(AfterTurn(m, retention, growth)) == TotalUsers(m) + growth
  {
    ChurnFirstConservesUsers(m, retention, |SegmentOrder|);
  }

  /** With non-negative counts and a retention in the range the script can
      reach before it exceeds 100, a turn keeps every count non-negative. */
  lemma TurnKeepsCountsNonNegative(m: Segments, retention: int, growth: int)
    requires Complete(m) && AllNonNegative(m)
    requires 80 <= retention <= 100 && 50 <= growth
    ensures AllNonNegative(AfterTurn(m, retention, growth))
  {
    ChurnKeepsCountsNonNegative(m, retention);
  }

  // ---------------------------------------------------------------------
  // The game state
  // ---------------------------------------------------------------------

  class SalesGame {
    var revenue: int
    var retention: int
    var segments: Segments
    var totalUsers: int
    var currentTurn: int
    /** The three action buttons are disabled (the game was won or lost). */
    var actionsDisabled: bool

    /** Every segment has a count, retention never falls below its
        starting value (the script only ever raises it), and while retention
        is at most 100 no segment count is negative. */
    ghost predicate Valid()
      reads this
    {
      Complete(segments) && retention >= 80 &&
      (retention <= 100 ==> AllNonNegative(segments))
    }

    /** The state the script sets up, including the first dashboard update
        that computes the total. */
    constructor ()
      ensures Valid()
      ensures revenue == 10000 && retention == 80 && segments == InitialSegments
      ensures totalUsers == 4110 && totalUsers == TotalUsers(segments)
      ensures currentTurn == 1 && !actionsDisabled
    {
      revenue := 10000;
      retention := 80;
      segments := InitialSegments;
      totalUsers := 0;
      currentTurn := 1;
      actionsDisabled := false;
      new;
      InitialSegmentsComplete();
      UpdateTotalUsers();
    }

    /** `updateTotalUsers`: the script's sum over the six counts, proved
        equal to the `TotalUsers` that specifies it. */
    method UpdateTotalUsers()
      requires Complete(segments)
      modifies this`totalUsers
      ensures totalUsers == TotalUsers(segments)
    {
      totalUsers := segments[NewPlayers] + segments[Grinders] + segments[Minnows]
        + segments[Dolphins] + segments[Whales] + segments[LapsedPlayers];
    }

    /** The churn step of `advanceTurn`: every segment but the lapsed
        players loses its churn to the lapsed players, in segment order. */
    method SimulateChurn()
      requires Complete(segments)
      modifies this`segments
      ensures segments == AfterChurn(old(segments), retention)
    {
      ghost var m0 := segments;
      for i := 0 to |SegmentOrder|
        invariant segments == ChurnFirst(m0, retention, i)
      {
        var segment := SegmentOrder[i];
        if segment != LapsedPlayers {
          var churnedUsers := Churn(segments[segment], retention);
          segments := segments[segment := segments[segment] - churnedUsers];
          segments := segments[LapsedPlayers := segments[LapsedPlayers] + churnedUsers];
        }
      }
    }

    /** `advanceTurn`: churn, organic growth of 50 to 249 new players, the
        next turn, the dashboard total, and the win/lose check that disables
        the actions. Revenue and retention are not touched. */
    method AdvanceTurn() returns (growth: int)
      requires Valid()
      modifies this
      ensures Valid()
      ensures 50 <= growth <= 249
      ensures segments == AfterTurn(old(segments), old(retention), growth)
      ensures revenue == old(revenue) && retention == old(retention)
      ensures currentTurn == old(currentTurn) + 1
      ensures totalUsers == TotalUsers(segments)
      ensures actionsDisabled == (old(actionsDisabled) || Verdict(revenue, totalUsers) != Playing)
    {
      ghost var m0 := segments;
      SimulateChurn();

      growth :| 50 <= growth <= 249;
      segments := segments[NewPlayers := segments[NewPlayers] + growth];
      if retention <= 100 {
        TurnKeepsCountsNonNegative(m0, retention, growth);
      }
      currentTurn := currentTurn + 1;
      UpdateTotalUsers();

      if revenue >= 1000000 {
        actionsDisabled := true;
      } else if totalUsers <= 100 && revenue < 0 {
        actionsDisabled := true;
      }
    }

    /** `runMarketingCampaign`: converts a tenth of the grinders (rounded
        down) into minnows for 5000 of revenue, then ends the turn. */
    method RunMarketingCampaign() returns (growth: int)
      requires Valid() && !actionsDisabled
      modifies this
      ensures Valid()
      ensures 50 <= growth <= 249
      ensures segments == AfterTurn(Campaign(old(segments)), old(retention), growth)
      ensures TotalUsers(segments) == old(TotalUsers(segments)) + growth
      ensures revenue == old(revenue) - 5000 && retention == old(retention)
      ensures currentTurn == old(currentTurn) + 1
      ensures totalUsers == TotalUsers(segments)
      ensures actionsDisabled == (Verdict(revenue, totalUsers) != Playing)
    {
      var convertedUsers := Converted(segments[Grinders]);
      segments := segments[Grinders := segments[Grinders] - convertedUsers];
      segments := segments[Minnows := segments[Minnows] + convertedUsers];
      revenue := revenue - 5000;
      assert segments == Campaign(old(segments));
      CampaignConservesUsers(old(segments));
      if retention <= 100 {
        CampaignKeepsCountsNonNegative(old(segments));
      }
      ghost var m1 := segments;
      growth := AdvanceTurn();
      TurnAddsGrowth(m1, retention, growth);
    }

    /** `offerDiscounts`: half the dolphins (rounded down) buy at 25 each;
        no segment changes before the turn ends. */
    method OfferDiscounts() returns (growth: int)
      requires Valid() && !actionsDisabled
      modifies this
      ensures Valid()
      ensures 50 <= growth <= 249
      ensures segments == AfterTurn(old(segments), old(retention), growth)
      ensures TotalUsers(segments) == old(TotalUsers(segments)) + growth
      ensures revenue == old(revenue) + DiscountRevenue(old(segments)[Dolphins])
      ensures retention == old(retention)
      ensures currentTurn == old(currentTurn) + 1
      ensures totalUsers == TotalUsers(segments)
      ensures actionsDisabled == (Verdict(revenue, totalUsers) != Playing)
    {
      var revenueFromDiscounts := DiscountRevenue(segments[Dolphins]);
      revenue := revenue + revenueFromDiscounts;
      growth := AdvanceTurn();
      TurnAddsGrowth(old(segments), retention, growth);
    }

    /** `subscriptionDrive`: 80% of the whales (rounded down) subscribe at 15
        each, and retention rises by one point -- with no upper bound --
        before the turn ends. */
    method SubscriptionDrive() returns (growth: int)
      requires Valid() && !actionsDisabled
      modifies this
      ensures Valid()
      ensures 50 <= growth <= 249
      ensures segments == AfterTurn(old(segments), old(retention) + 1, growth)
      ensures TotalUsers(segments) == old(TotalUsers(segments)) + growth
      ensures revenue == old(revenue) + SubscriptionRevenue(old(segments)[Whales])
      ensures retention == old(retention) + 1
      ensures currentTurn == old(currentTurn) + 1
      ensures totalUsers == TotalUsers(segments)
      ensures actionsDisabled == (Verdict(revenue, totalUsers) != Playing)
    {
      var revenueFromSubscriptions := SubscriptionRevenue(segments[Whales]);
      revenue := revenue + revenueFromSubscriptions;
      retention := retention + 1;
      growth := AdvanceTurn();
      TurnAddsGrowth(old(segments), retention, growth);
    }
  }
}
