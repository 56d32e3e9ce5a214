/** The contact dashboard (components/InfluencersDashboard.js): a list of influencer
    records with string-valued follower counts, a search-and-status filter over it,
    summary statistics computed when the list is loaded, and a "log contact" action
    that stamps the time of the last contact on a record. */
module ContactDashboard {
  import opened Text
  import Seqs

  /** An influencer record as this component holds it. */
  datatype Influencer = Influencer(
    id: int,
    name: string,
    email: string,
    phone: string,
    specialty: string,
    followers: string,
    platform: string,
    engagement_rate: string,
    location: string,
    status: string,
    last_contact: string,
    content_focus: string,
    collaboration_type: string,
    bio: string,
    website_url: string,
    social_handles: map<string, string>)

  /** The statistics block shown above the list. */
  datatype Stats = Stats(
    totalInfluencers: nat,
    activeInfluencers: nat,
    pendingInfluencers: nat,
    totalReach: string)

  /** The records `loadInfluencers` installs: ids 1 to 3, two active and one pending. */
  function MockData(): (r: seq<Influencer>)
    ensures |r| == 3
    ensures forall i :: 0 <= i < 3 ==> r[i].id == i + 1
    ensures r[0].status == "active" && r[1].status == "pending" && r[2].status == "active"
  {
    [ Influencer(1, "Dr. Sarah Johnson", "sarah.johnson@email.com", "+1-555-0123",
        "Endocrinology", "150K", "Instagram", "4.2%", "New York, NY", "active",
        "2024-08-10T00:00:00Z", "Diabetes Management", "Educational Content",
        "Board-certified endocrinologist "
        + "specializing in diabetes care "
        + "with 10+ years experience.",
        "https://drsarahjohnson.com",
        map["instagram" := "@drsarahjohnson", "twitter" := "@sarahjohnsonmd"]),
      Influencer(2, "Maria Rodriguez RD", "maria.rodriguez@email.com", "+1-555-0124",
        "Nutrition", "95K", "TikTok", "6.8%", "Los Angeles, CA", "pending",
        "2024-08-08T00:00:00Z", "Diabetic Recipes", "Product Reviews",
        "Registered Dietitian creating "
        + "delicious, diabetes-friendly "
        + "recipes and meal plans.",
        "https://marianutrition.com",
        map["tiktok" := "@marianutrition", "instagram" := "@maria_rd"]),
      Influencer(3, "James Chen MD", "james.chen@email.com", "+1-555-0125",
        "Internal Medicine", "220K", "YouTube", "3.9%", "Chicago, IL", "active",
        "2024-08-12T00:00:00Z", "Patient Education", "Sponsored Content",
        "Internal Medicine physician "
        + "educating patients about diabetes "
        + "management and prevention.",
        "https://drjameschen.com",
        map["youtube" := "@DrJamesChen", "linkedin" := "james-chen-md"]) ]
  }

  // ---------------------------------------------------------------------------
  // Search and status filter (searchInfluencers)
  // ---------------------------------------------------------------------------

  /** An empty term matches everything; otherwise the lower-cased term must occur in
      the lower-cased name, specialty or content focus. */
  predicate MatchesSearch(inf: Influencer, term: string)
  {
    term == []
    || Contains(Lower(inf.name), Lower(term))
    || Contains(Lower(inf.specialty), Lower(term))
    || Contains(Lower(inf.content_focus), Lower(term))
  }

  /** The status filter `'all'` matches everything; any other value must equal the status. */
  predicate MatchesFilter(inf: Influencer, status: string)
  {
    status == "all" || inf.status == status
  }

  predicate Matches(inf: Influencer, term: string, status: string)
  {
    MatchesSearch(inf, term) && MatchesFilter(inf, status)
  }

  /** The filtered view: the records that match both the term and the status filter,
      as an order-preserving subsequence of the list; `SearchKeepsEveryMatch` says
      that no matching occurrence is dropped. */
  function Search(s: seq<Influencer>, term: string, status: string): (r: seq<Influencer>)
    ensures Seqs.Subsequence(r, s)
    ensures |r| <= |s|
    ensures forall x :: x in r ==> x in s && Matches(x, term, status)
  {
    Seqs.FilterIsSubsequence(s, inf => Matches(inf, term, status));
    Seqs.Filter(s, inf => Matches(inf, term, status))
  }

  /** A record is in the view exactly when it is in the list and matches. */
  lemma SearchMembership(s: seq<Influencer>, term: string, status: string, x: Influencer)
    ensures x in Search(s, term, status) <==> x in s && Matches(x, term, status)
  {
    Seqs.FilterMembership(s, inf => Matches(inf, term, status), x);
  }

  /** Each matching record occurs in the view as often as in the list; a record
      that does not match does not occur. */
  lemma SearchKeepsEveryMatch(s: seq<Influencer>, term: string, status: string, x: Influencer)
    ensures multiset(Search(s, term, status))[x] == if Matches(x, term, status) then multiset(s)[x] else 0
  {
    Seqs.FilterMultiplicity(s, inf => Matches(inf, term, status), x);
  }

  /** With no term and the status filter `'all'` the view is the whole list, in order. */
  lemma SearchWithoutFilters(s: seq<Influencer>)
    ensures Search(s, "", "all") == s
  {
    Seqs.FilterAllPass(s, inf => Matches(inf, "", "all"));
  }

  /** With a status other than `'all'` every record in the view has exactly that status. */
  lemma SearchByStatus(s: seq<Influencer>, term: string, status: string)
    requires status != "all"
    ensures forall x :: x in Search(s, term, status) ==> x.status == status
  {
  }

  /** The term is matched without regard to ASCII letter case. */
  lemma SearchIgnoresCase(s: seq<Influencer>, term: string, status: string)
    ensures Search(s, term, status) == Search(s, Lower(term), status)
  {
    LowerIdempotent(term);
    Seqs.FilterCongruent(s, inf => Matches(inf, term, status), inf => Matches(inf, Lower(term), status));
  }

  lemma {:induction false} LowerIdempotent(s: string)
    ensures Lower(Lower(s)) == Lower(s)
  {
    if s != [] {
      LowerIdempotent(s[1..]);
    }
  }

  // ---------------------------------------------------------------------------
  // Statistics (loadInfluencers)
  // ---------------------------------------------------------------------------

  /** `parseInt(followers.replace(/[^\d]/g, '')) || 0`: the number formed by the
      digits of the string, non-digits dropped, and 0 when there are none. */
  function FollowerCount(followers: string): nat
  {
    var ds := Digits(followers);
    if ds == [] then 0 else DecimalValue(ds)
  }

  /** A string made only of digits counts as the number it denotes. */
  lemma FollowerCountOfDigits(followers: string)
    requires followers != [] && AllDigits(followers)
    ensures FollowerCount(followers) == DecimalValue(followers)
  {
    DigitsOfDigits(followers);
  }

  /** A numeral followed by a suffix without digits (such as `K` or `M`) counts as the
      numeral alone: the suffix is dropped, not applied as a multiplier. */
  lemma FollowerCountOfNumeral(n: nat, suffix: string)
    requires forall i :: 0 <= i < |suffix| ==> !IsDigit(suffix[i])
    ensures FollowerCount(NatToString(n) + suffix) == n
  {
    DigitsAppend(NatToString(n), suffix);
    DigitsOfDigits(NatToString(n));
    DigitsOfNonDigits(suffix);
    assert NatToString(n) + [] == NatToString(n);
    DecimalValueOfNatToString(n);
  }

  /** "150K" counts as 150. */
  lemma FollowerCountOf150K()
    ensures FollowerCount("150K") == 150
  {
    FollowerCountOfThousands(150, "150K");
  }

  lemma FollowerCountOfThousands(n: nat, followers: string)
    requires NatToString(n) + "K" == followers
    ensures FollowerCount(followers) == n
  {
    FollowerCountOfNumeral(n, "K");
  }

  /** A string without digits counts as 0. */
  lemma FollowerCountWithoutDigits(followers: string)
    requires forall i :: 0 <= i < |followers| ==> !IsDigit(followers[i])
    ensures FollowerCount(followers) == 0
  {
    DigitsOfNonDigits(followers);
  }

  /** The sum of the follower counts of all records. */
  function TotalReach(s: seq<Influencer>): nat
  {
    if s == [] then 0 else FollowerCount(s[0].followers) + TotalReach(s[1..])
  }

  /** The total reach is at least the count of each record. */
  lemma {:induction false} TotalReachBounds(s: seq<Influencer>)
    ensures forall i :: 0 <= i < |s| ==> FollowerCount(s[i].followers) <= TotalReach(s)
  {
    if s != [] {
      TotalReachBounds(s[1..]);
      assert forall i :: 1 <= i < |s| ==> s[i] == s[1..][i - 1];
    }
  }

  /** The number of records whose status equals `status`: at most the list length. */
  function CountStatus(s: seq<Influencer>, status: string): (n: nat)
    ensures n <= |s|
  {
    |Seqs.Filter(s, (inf: Influencer) => inf.status == status)|
  }

  /** No record is counted exactly when no record has the status. */
  lemma CountStatusZero(s: seq<Influencer>, status: string)
    ensures CountStatus(s, status) == 0 <==> forall i :: 0 <= i < |s| ==> s[i].status != status
  {
    Seqs.FilterEmptyIffNonePass(s, (inf: Influencer) => inf.status == status);
  }

  /** The reach label: above one million, the total in millions to one decimal
      (`toFixed(1)`, exact ties rounded up) and "M"; otherwise the total in
      thousands rounded half up (`Math.round`) and "K". */
  function ReachLabel(total: nat): (r: string)
    ensures |r| >= 2
    ensures r[|r| - 1] == 'M' <==> total > 1000000
    ensures r[|r| - 1] == 'K' <==> total <= 1000000
  {
    if total > 1000000 then
      Fixed1(total, 1000000) + "M"
    else
      NatToString((total + 500) / 1000) + "K"
  }

  /** Reading the number back out of the label (with the same digit-extracting parse)
      gives the total to the nearest thousand (up to one million) or to the nearest
      tenth of a million (above). */
  lemma ReachLabelRounds(total: nat)
    ensures var k := FollowerCount(ReachLabel(total));
            if total > 1000000
            then 100000 * k - 50000 <= total < 100000 * k + 50000
            else 1000 * k - 500 <= total < 1000 * k + 500
  {
    if total > 1000000 {
      var t := FollowerCount(ReachLabel(total));
      ReachOfMillions(total);
      Fixed1Tenths(total, 1000000);
      TenthsOfMillions(t, total);
    } else {
      FollowerCountOfNumeral((total + 500) / 1000, "K");
    }
  }

  lemma ReachOfMillions(total: nat)
    requires total > 1000000
    ensures FollowerCount(ReachLabel(total)) == DecimalValue(Digits(Fixed1(total, 1000000)))
  {
    var numeral := Fixed1(total, 1000000);
    assert ReachLabel(total) == numeral + "M";
    DigitsAppend(numeral, "M");
    DigitsOfNonDigits("M");
    var ds := Digits(numeral);
    assert Digits(ReachLabel(total)) == ds + [] == ds;
  }

  lemma TenthsOfMillions(t: nat, total: nat)
    requires 1000000 * t - 500000 <= 10 * total < 1000000 * t + 500000
    ensures 100000 * t - 50000 <= total < 100000 * t + 50000
  {
  }

  /** Exactly one million is still shown in thousands. */
  lemma ReachLabelAtOneMillion()
    ensures ReachLabel(1000000) == "1000K"
  {
    assert NatToString(1000) == "1000" by {
      assert NatToString(1) == "1";
      assert NatToString(10) == "10";
      assert NatToString(100) == "100";
    }
  }

  /** `setStats(...)` after loading: the count of records, the exact-status counts
      of `'active'` and `'pending'`, and the reach label of the summed counts. */
  function ComputeStats(s: seq<Influencer>): (st: Stats)
    ensures st.totalInfluencers == |s|
    ensures st.activeInfluencers == CountStatus(s, "active")
    ensures st.pendingInfluencers == CountStatus(s, "pending")
    ensures st.totalReach == ReachLabel(TotalReach(s))
    ensures st.activeInfluencers + st.pendingInfluencers <= st.totalInfluencers
  {
    Seqs.FilterDisjointCounts(s, (inf: Influencer) => inf.status == "active", (inf: Influencer) => inf.status == "pending");
    Stats(|s|, CountStatus(s, "active"), CountStatus(s, "pending"), ReachLabel(TotalReach(s)))
  }

  /** The demo records give 3 influencers, 2 active, 1 pending, and a reach of "0K":
      their counts "150K", "95K" and "220K" add up to 465, not 465,000. */
  lemma MockDataStats()
    ensures ComputeStats(MockData()) == Stats(3, 2, 1, "0K")
  {
    MockDataReach();
    MockDataStatusCounts();
    ReachLabelOf465();
  }

  lemma ReachLabelOf465()
    ensures ReachLabel(465) == "0K"
  {
    assert NatToString(0) == "0";
  }

  lemma MockDataReach()
    ensures TotalReach(MockData()) == 465
  {
    MockDataFollowerCounts();
    ReachOfThree(MockData());
  }

  lemma MockDataFollowerCounts()
    ensures FollowerCount(MockData()[0].followers) == 150
    ensures FollowerCount(MockData()[1].followers) == 95
    ensures FollowerCount(MockData()[2].followers) == 220
  {
    MockDataFollowerCount0();
    MockDataFollowerCount1();
    MockDataFollowerCount2();
  }

  lemma MockDataFollowerCount0()
    ensures FollowerCount(MockData()[0].followers) == 150
  {
    FollowerCountOfThousands(150, MockData()[0].followers);
  }

  lemma MockDataFollowerCount1()
    ensures FollowerCount(MockData()[1].followers) == 95
  {
    FollowerCountOfThousands(95, MockData()[1].followers);
  }

  lemma MockDataFollowerCount2()
    ensures FollowerCount(MockData()[2].followers) == 220
  {
    assert NatToString(22) == "22";
    FollowerCountOfThousands(220, MockData()[2].followers);
  }

  lemma ReachOfThree(s: seq<Influencer>)
    requires |s| == 3
    ensures TotalReach(s) == FollowerCount(s[0].followers) + FollowerCount(s[1].followers)
                             + FollowerCount(s[2].followers)
  {
    assert s[2..][1..] == [];
    assert s[1..][1..] == s[2..];
  }

  lemma MockDataStatusCounts()
    ensures CountStatus(MockData(), "active") == 2
    ensures CountStatus(MockData(), "pending") == 1
  {
    var s := MockData();
    assert s[0].status == "active" && s[1].status == "pending" && s[2].status == "active";
    CountStatusOfThree(s, "active");
    CountStatusOfThree(s, "pending");
  }

  lemma CountStatusOfThree(s: seq<Influencer>, status: string)
    requires |s| == 3
    ensures CountStatus(s, status) ==
            (if s[0].status == status then 1 else 0) + (if s[1].status == status then 1 else 0)
            + (if s[2].status == status then 1 else 0)
  {
    CountStatusCons(s, status);
    CountStatusCons(s[1..], status);
    CountStatusCons(s[2..], status);
    assert s[1..][1..] == s[2..];
    assert s[2..][1..] == [];
  }

  lemma CountStatusCons(s: seq<Influencer>, status: string)
    requires s != []
    ensures CountStatus(s, status) == (if s[0].status == status then 1 else 0) + CountStatus(s[1..], status)
  {
  }

  // ---------------------------------------------------------------------------
  // Logging a contact (logContact)
  // ---------------------------------------------------------------------------

  /** `prev.map(inf => inf.id === id ? { ...inf, last_contact: now } : inf)`: every
      record with the given id gets `now` as its last contact; nothing else changes.
      The source evaluates `new Date().toISOString()` once per matching record, so
      records sharing an id could get stamps a millisecond apart; one `now` for all of
      them is a simplification. */
  function StampLastContact(s: seq<Influencer>, id: int, now: string): (r: seq<Influencer>)
    ensures |r| == |s|
    ensures forall i :: 0 <= i < |s| && s[i].id != id ==> r[i] == s[i]
    ensures forall i :: 0 <= i < |s| && s[i].id == id ==> r[i] == s[i].(last_contact := now)
  {
    if s == [] then []
    else [if s[0].id == id then s[0].(last_contact := now) else s[0]]
         + StampLastContact(s[1..], id, now)
  }

  /** Stamping a contact changes no status and no follower count, so the statistics
      computed at load time stay accurate. */
  lemma {:induction false} StampKeepsStats(s: seq<Influencer>, id: int, now: string)
    ensures ComputeStats(StampLastContact(s, id, now)) == ComputeStats(s)
  {
    StampKeepsCounts(s, id, now, "active");
    StampKeepsCounts(s, id, now, "pending");
    StampKeepsReach(s, id, now);
  }

  lemma {:induction false} StampKeepsCounts(s: seq<Influencer>, id: int, now: string, status: string)
    ensures CountStatus(StampLastContact(s, id, now), status) == CountStatus(s, status)
  {
    if s != [] {
      StampKeepsCounts(s[1..], id, now, status);
      var r := StampLastContact(s, id, now);
      assert r[1..] == StampLastContact(s[1..], id, now);
    }
  }

  lemma {:induction false} StampKeepsReach(s: seq<Influencer>, id: int, now: string)
    ensures TotalReach(StampLastContact(s, id, now)) == TotalReach(s)
  {
    if s != [] {
      StampKeepsReach(s[1..], id, now);
      var r := StampLastContact(s, id, now);
      assert r[1..] == StampLastContact(s[1..], id, now);
    }
  }

  /** Stamping twice with the same time is the same as stamping once. */
  lemma {:induction false} StampIdempotent(s: seq<Influencer>, id: int, now: string)
    ensures StampLastContact(StampLastContact(s, id, now), id, now) == StampLastContact(s, id, now)
  {
    if s != [] {
      StampIdempotent(s[1..], id, now);
      var r := StampLastContact(s, id, now);
      assert r[1..] == StampLastContact(s[1..], id, now);
    }
  }

  // ---------------------------------------------------------------------------
  // The component state
  // ---------------------------------------------------------------------------

  /** The component's state: the loaded list, the loading flag, the search term, the
      status filter, the filtered view the effect recomputes from them, and the stats. */
  class Dashboard {
    var influencers: seq<Influencer>
    var loading: bool
    var searchTerm: string
    var filterStatus: string
    var filteredInfluencers: seq<Influencer>
    var stats: Stats

    /** The filtered view always reflects the list, term and filter; once loading has
        finished, the statistics describe the current list. */
    ghost predicate Valid()
      reads this
    {
      && filteredInfluencers == Search(influencers, searchTerm, filterStatus)
      && (!loading ==> stats == ComputeStats(influencers))
    }

    constructor ()
      ensures Valid()
      ensures influencers == [] && loading && searchTerm == "" && filterStatus == "all"
      ensures filteredInfluencers == [] && stats == Stats(0, 0, 0, "0")
    {
      influencers := [];
      loading := true;
      searchTerm := "";
      filterStatus := "all";
      filteredInfluencers := [];
      stats := Stats(0, 0, 0, "0");
    }

    /** `loadInfluencers`: installs the demo records, computes the statistics and clears
        the loading flag; the filter effect then recomputes the view. */
    method LoadInfluencers()
      modifies this
      ensures Valid()
      ensures influencers == MockData() && !loading
      ensures stats == ComputeStats(MockData())
      ensures searchTerm == old(searchTerm) && filterStatus == old(filterStatus)
    {
      loading := true;
      Install(MockData());
    }

    /** The body of `loadInfluencers` after the list has been obtained: store it,
        compute its statistics, clear the loading flag and refresh the view. */
    method Install(data: seq<Influencer>)
      modifies this
      ensures Valid()
      ensures influencers == data && !loading && stats == ComputeStats(data)
      ensures searchTerm == old(searchTerm) && filterStatus == old(filterStatus)
    {
      influencers := data;
      stats := ComputeStats(data);
      loading := false;
      filteredInfluencers := Search(influencers, searchTerm, filterStatus);
    }

    /** Typing in the search box. */
    method SetSearchTerm(term: string)
      requires Valid()
      modifies this
      ensures Valid()
      ensures searchTerm == term
      ensures influencers == old(influencers) && filterStatus == old(filterStatus)
      ensures loading == old(loading) && stats == old(stats)
    {
      searchTerm := term;
      filteredInfluencers := Search(influencers, searchTerm, filterStatus);
    }

    /** Choosing a status in the filter drop-down. */
    method SetFilterStatus(status: string)
      requires Valid()
      modifies this
      ensures Valid()
      ensures filterStatus == status
      ensures influencers == old(influencers) && searchTerm == old(searchTerm)
      ensures loading == old(loading) && stats == old(stats)
    {
      filterStatus := status;
      filteredInfluencers := Search(influencers, searchTerm, filterStatus);
    }

    /** `logContact`: stamps `now` (the caller's `new Date().toISOString()`) on every
        record with the given id. The contact type only reaches the console; the notes are unused. */
    method LogContact(influencerId: int, contactType: string, notes: string, now: string)
      requires Valid()
      modifies this
      ensures Valid()
      ensures influencers == StampLastContact(old(influencers), influencerId, now)
      ensures stats == old(stats) && loading == old(loading)
      ensures searchTerm == old(searchTerm) && filterStatus == old(filterStatus)
    {
      var stamped := StampLastContact(influencers, influencerId, now);
      StampKeepsStats(influencers, influencerId, now);
      influencers := stamped;
      filteredInfluencers := Search(stamped, searchTerm, filterStatus);
    }
  }
}
