/** The influencer directory page (app/influencers/page.tsx): a local list of
    influencers with integer follower counts, seeded with demo records, an add form
    that appends to the list, a confirmed delete, four statistics over the list and
    the Instagram profile link built from a handle. */
module InfluencerDirectory {
  import opened Wrappers
  import opened Text
  import Seqs

  /** An influencer as this page holds it; `id` and `notes` are optional fields. */
  datatype Influencer = Influencer(
    id: Option<int>,
    name: string,
    platform: string,
    handle: string,
    contact_info: string,
    location: string,
    follower_count: int,
    engagement_rate: string,
    content_niche: string,
    notes: Option<string>)

  /** The add form's initial and reset value. */
  function EmptyForm(): (f: Influencer)
    ensures f.id.None? && f.platform == "Instagram" && f.follower_count == 0
    ensures f.name == f.handle == f.contact_info == f.location == f.engagement_rate == f.content_niche == ""
    ensures f.notes == Some("")
  {
    Influencer(None, "", "Instagram", "", "", "", 0, "", "", Some(""))
  }

  /** `getDemoData()`: the six records the page shows after loading, with ids 1 to 6
      (so every one of them can be deleted from its card), all on Instagram, with
      positive follower counts. */
  function DemoData(): (r: seq<Influencer>)
    ensures |r| == 6
    ensures forall i :: 0 <= i < 6 ==> r[i].id == Some(i + 1)
    ensures forall i :: 0 <= i < 6 ==> r[i].platform == "Instagram" && r[i].follower_count > 0
  {
    [ Influencer(Some(1), "Dr. Sagari Ananda", "Instagram", "@dr.sagariananda",
        "sagari.ananda@example.com", "Hyderabad", 45000, "3.2", "Family Medicine",
        Some("Family physician, NDTV contributor")),
      Influencer(Some(2), "Dr. Rajender Ramagiri", "Instagram", "@doctor.rajender",
        "rajender.ramagiri@example.com", "Hyderabad", 38000, "4.1", "Diabetes Care",
        Some("Claims 3000+ reversed cases")),
      Influencer(Some(3), "Dr. Manasa Mynepally", "Instagram", "@drmanasamynepally",
        "manasa.mynepally@example.com", "Khajaguda, Hyderabad", 25000, "3.8", "Endocrinology",
        Some("Diabetes/thyroid specialist")),
      Influencer(Some(4), "Dr. Prudwiraj S", "Instagram", "@drprudwiraj",
        "prudwiraj.s@example.com", "Gachibowli, Hyderabad", 22000, "2.9", "General Medicine",
        Some("Magna Clinic & Arete Hospitals")),
      Influencer(Some(5), "Pooja Ganesh", "Instagram", "@nutritionist_inkannada",
        "pooja.ganesh@example.com", "Bangalore", 632000, "5.2", "Nutrition",
        Some("Award-winning, strong South India presence")),
      Influencer(Some(6), "Fit Saida", "Instagram", "@fitsaida_fit",
        "fit.saida@example.com", "Hyderabad", 527000, "2.32", "Fitness",
        Some("Fitness athlete, major Hyderabad audience")) ]
  }

  // ---------------------------------------------------------------------------
  // Delete (handleDeleteInfluencer)
  // ---------------------------------------------------------------------------

  /** `influencers.filter(inf => inf.id !== id)`: drops every record carrying the id;
      records without an id are never equal to it and stay, in their order (every
      occurrence of them: `RemoveByIdKeepsOthers`). */
  function RemoveById(s: seq<Influencer>, id: int): (r: seq<Influencer>)
    ensures Seqs.Subsequence(r, s)
    ensures forall x :: x in r ==> x in s && x.id != Some(id)
  {
    Seqs.FilterIsSubsequence(s, (inf: Influencer) => inf.id != Some(id));
    Seqs.Filter(s, (inf: Influencer) => inf.id != Some(id))
  }

  /** Exactly the records with another id (or none) survive a delete. */
  lemma RemoveByIdMembership(s: seq<Influencer>, id: int, x: Influencer)
    ensures x in RemoveById(s, id) <==> x in s && x.id != Some(id)
  {
    Seqs.FilterMembership(s, (inf: Influencer) => inf.id != Some(id), x);
  }

  /** A record with another id, or none, survives as often as it occurred; a record
      with the id does not survive at all. */
  lemma RemoveByIdKeepsOthers(s: seq<Influencer>, id: int, x: Influencer)
    ensures multiset(RemoveById(s, id))[x] == if x.id != Some(id) then multiset(s)[x] else 0
  {
    Seqs.FilterMultiplicity(s, (inf: Influencer) => inf.id != Some(id), x);
  }

  /** Deleting an id no record carries leaves the list as it is. */
  lemma RemoveAbsentId(s: seq<Influencer>, id: int)
    requires forall i :: 0 <= i < |s| ==> s[i].id != Some(id)
    ensures RemoveById(s, id) == s
  {
    Seqs.FilterAllPass(s, (inf: Influencer) => inf.id != Some(id));
  }

  /** Deleting the same id twice is the same as deleting it once. */
  lemma RemoveByIdIdempotent(s: seq<Influencer>, id: int)
    ensures RemoveById(RemoveById(s, id), id) == RemoveById(s, id)
  {
    var r := RemoveById(s, id);
    assert forall i :: 0 <= i < |r| ==> r[i] in r;
    RemoveAbsentId(r, id);
  }

  /** Deleting the id a record was just added under removes exactly that record,
      when no earlier record carried the same id. */
  lemma AddThenRemove(s: seq<Influencer>, form: Influencer, now: int)
    requires forall i :: 0 <= i < |s| ==> s[i].id != Some(now)
    ensures RemoveById(s + [form.(id := Some(now))], now) == s
  {
    var added := form.(id := Some(now));
    Seqs.FilterAppend(s, [added], (inf: Influencer) => inf.id != Some(now));
    RemoveAbsentId(s, now);
  }

  // ---------------------------------------------------------------------------
  // Statistics
  // ---------------------------------------------------------------------------

  /** `influencers.reduce((sum, inf) => sum + inf.follower_count, 0)`. */
  function TotalReach(s: seq<Influencer>): int
  {
    Seqs.Sum(s, (inf: Influencer) => inf.follower_count)
  }

  /** Adding a record raises the total reach by its follower count. */
  lemma TotalReachAfterAdd(s: seq<Influencer>, x: Influencer)
    ensures TotalReach(s + [x]) == TotalReach(s) + x.follower_count
  {
    Seqs.SumAppend(s, [x], (inf: Influencer) => inf.follower_count);
  }

  /** With no negative follower counts the total reach is at least each record's count. */
  lemma {:induction false} TotalReachBounds(s: seq<Influencer>)
    requires forall i :: 0 <= i < |s| ==> s[i].follower_count >= 0
    ensures TotalReach(s) >= 0
    ensures forall i :: 0 <= i < |s| ==> s[i].follower_count <= TotalReach(s)
  {
    if s != [] {
      TotalReachBounds(s[1..]);
      assert forall i :: 1 <= i < |s| ==> s[i] == s[1..][i - 1];
    }
  }

  /** The Total Reach stat: `(total / 1000000).toFixed(1)` and "M", the total in
      millions to one decimal; `toFixed` writes a negative value as "-" and the
      digits of its magnitude. */
  function ReachLabel(total: int): (r: string)
    ensures |r| >= 4 && r[|r| - 1] == 'M' && r[|r| - 3] == '.'
    ensures total < 0 <==> r[0] == '-'
  {
    if total >= 0 then Fixed1(total, 1000000) + "M"
    else "-" + Fixed1(-total, 1000000) + "M"
  }

  /** Reading the digits of the label back as one number gives the magnitude of the
      total in tenths of a million, to within half a tenth. */
  lemma ReachLabelRounds(total: int)
    ensures var t := DecimalValue(Digits(ReachLabel(total)));
            var m := if total < 0 then -total else total;
            1000000 * t - 500000 <= 10 * m < 1000000 * t + 500000
  {
    ReachLabelDigits(total);
    Fixed1Tenths(if total < 0 then -total else total, 1000000);
  }

  /** The sign and the unit add no digits to the label. */
  lemma ReachLabelDigits(total: int)
    ensures Digits(ReachLabel(total)) == Digits(Fixed1(if total < 0 then -total else total, 1000000))
  {
    var numeral := Fixed1(if total < 0 then -total else total, 1000000);
    DigitsOfNonDigits("M");
    if total >= 0 {
      DigitsAppend(numeral, "M");
      assert Digits(numeral) + [] == Digits(numeral);
    } else {
      assert ReachLabel(total) == "-" + (numeral + "M");
      DigitsAppend("-", numeral + "M");
      DigitsAppend(numeral, "M");
      DigitsOfNonDigits("-");
      assert [] + (Digits(numeral) + []) == Digits(numeral);
    }
  }

  /** The Specialties stat: `new Set(influencers.map(inf => inf.content_niche)).size`. */
  function SpecialtyCount(s: seq<Influencer>): (n: nat)
    ensures n <= |s|
    ensures n == 0 <==> s == []
  {
    |Seqs.Image(s, (inf: Influencer) => inf.content_niche)|
  }

  /** `location.split(',')[0]`: the part of a location before its first comma, the
      whole location when it has none. */
  function CityOf(location: string): (city: string)
    ensures ',' !in city && StartsWith(location, city)
    ensures |city| < |location| ==> location[|city|] == ','
  {
    PrefixBefore(location, ',')
  }

  lemma CityOfKhajaguda()
    ensures CityOf("Khajaguda, Hyderabad") == "Khajaguda"
  {
    var loc := "Khajaguda, Hyderabad";
    assert loc[9] == ',';
    assert ',' !in loc[..9];
    PrefixBeforeAt(loc, ',', 9);
  }

  /** The prefix before the first separator is everything up to that separator. */
  lemma {:induction false} PrefixBeforeAt(s: string, sep: char, k: nat)
    requires k < |s| && s[k] == sep && sep !in s[..k]
    ensures PrefixBefore(s, sep) == s[..k]
  {
    if k > 0 {
      assert s[0] in s[..k];
      assert s[1..][..k - 1] == s[1..k];
      PrefixBeforeAt(s[1..], sep, k - 1);
      assert s[..k] == [s[0]] + s[1..k];
    }
  }

  /** A location without a comma is its own city. */
  lemma {:induction false} CityOfWithoutComma(location: string)
    requires ',' !in location
    ensures CityOf(location) == location
  {
    if location != [] {
      assert location == [location[0]] + location[1..];
      CityOfWithoutComma(location[1..]);
    }
  }

  /** The Cities stat: `new Set(influencers.map(inf => inf.location.split(',')[0])).size`. */
  function CityCount(s: seq<Influencer>): (n: nat)
    ensures n <= |s|
    ensures n == 0 <==> s == []
  {
    |Seqs.Image(s, (inf: Influencer) => CityOf(inf.location))|
  }

  /** Instagram profile links start with this prefix. */
  const InstagramPrefix: string := "https://instagram.com/"

  /** `openInstagram(handle)`: the profile URL, with the first `@` of the handle removed. */
  function InstagramUrl(handle: string): (url: string)
    ensures StartsWith(url, InstagramPrefix)
    ensures '@' !in handle ==> url == InstagramPrefix + handle
    ensures '@' in handle ==> |url| == |InstagramPrefix| + |handle| - 1
  {
    InstagramPrefix + RemoveFirst(handle, '@')
  }

  /** A handle stored as `@name` links to the profile `name`, whatever `name` holds. */
  lemma InstagramUrlOfAtHandle(name: string)
    ensures InstagramUrl("@" + name) == InstagramPrefix + name
  {
    var handle := "@" + name;
    assert handle[..0] == [];
    RemoveFirstAt(handle, '@', 0);
    assert handle[1..] == name;
  }

  /** Only the first `@` is removed: any later one stays in the link. */
  lemma InstagramUrlKeepsLaterAt(handle: string, k: nat)
    requires k < |handle| && handle[k] == '@' && '@' !in handle[..k]
    ensures InstagramUrl(handle) == InstagramPrefix + handle[..k] + handle[k + 1..]
  {
    RemoveFirstAt(handle, '@', k);
  }

  // ---------------------------------------------------------------------------
  // The page state
  // ---------------------------------------------------------------------------

  class DirectoryPage {
    var influencers: seq<Influencer>
    var formData: Influencer
    var showAddForm: bool
    var loading: bool

    constructor ()
      ensures influencers == [] && formData == EmptyForm() && !showAddForm && loading
    {
      influencers := [];
      formData := EmptyForm();
      showAddForm := false;
      loading := true;
    }

    /** The mount timer's callback: the demo records replace the list and loading ends.
        It runs whatever the database holds; nothing is fetched. */
    method FinishLoading()
      modifies this
      ensures influencers == DemoData() && !loading
      ensures formData == old(formData) && showAddForm == old(showAddForm)
    {
      influencers := DemoData();
      loading := false;
    }

    /** The "Add New Influencer" button. */
    method OpenAddForm()
      modifies this
      ensures showAddForm
      ensures influencers == old(influencers) && formData == old(formData) && loading == old(loading)
    {
      showAddForm := true;
    }

    /** Editing the form: any field values the inputs produce. */
    method EditForm(form: Influencer)
      modifies this
      ensures formData == form
      ensures influencers == old(influencers) && showAddForm == old(showAddForm) && loading == old(loading)
    {
      formData := form;
    }

    /** `handleAddInfluencer`: appends the form's fields under the id `now` (the
        caller's `Date.now()`), resets the form and closes it. */
    method HandleAddInfluencer(now: int)
      modifies this
      ensures influencers == old(influencers) + [old(formData).(id := Some(now))]
      ensures formData == EmptyForm() && !showAddForm && loading == old(loading)
    {
      var newInfluencer := formData.(id := Some(now));
      influencers := influencers + [newInfluencer];
      formData := EmptyForm();
      showAddForm := false;
    }

    /** `handleDeleteInfluencer`: `confirmed` is the answer to the confirmation
        dialog. Declined, nothing changes; confirmed, every record with the id goes. */
    method HandleDeleteInfluencer(id: int, confirmed: bool)
      modifies this
      ensures influencers == if confirmed then RemoveById(old(influencers), id) else old(influencers)
      ensures formData == old(formData) && showAddForm == old(showAddForm) && loading == old(loading)
    {
      if !confirmed {
        return;
      }
      influencers := RemoveById(influencers, id);
    }

    /** A card's delete button: `influencer.id && handleDeleteInfluencer(influencer.id)`,
        so a record without an id, or with id 0, cannot be deleted from its card. */
    method ClickDelete(influencer: Influencer, confirmed: bool)
      modifies this
      ensures influencers ==
        if influencer.id.Some? && influencer.id.value != 0 && confirmed
        then RemoveById(old(influencers), influencer.id.value)
        else old(influencers)
      ensures formData == old(formData) && showAddForm == old(showAddForm) && loading == old(loading)
    {
      if influencer.id.Some? && influencer.id.value != 0 {
        HandleDeleteInfluencer(influencer.id.value, confirmed);
      }
    }
  }
}
