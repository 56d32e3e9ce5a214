/** The outreach page (src/app/influencers/page.tsx): the influencer list loaded from
    the database, a status selector per record that updates the list locally once the
    remote update succeeds, and an outreach form whose saved log promotes a pending
    influencer to contacted. Remote calls are parameters: their outcome (rows, or the
    value they threw) is given to the method that awaits them. */
module OutreachPage {
  import opened Wrappers
  import opened Schema
  import opened Text

  // ---------------------------------------------------------------------------
  // Remote outcomes
  // ---------------------------------------------------------------------------

  /** `err instanceof Error ? err.message : 'Failed to fetch influencers'`. */
  function FetchErrorText(f: Failure): (r: string)
    ensures f.ErrorObject? ==> r == f.message
    ensures f.OtherValue? ==> r == "Failed to fetch influencers"
  {
    match f
    case ErrorObject(message) => message
    case OtherValue => "Failed to fetch influencers"
  }

  // ---------------------------------------------------------------------------
  // Local status update (updateInfluencerStatus)
  // ---------------------------------------------------------------------------

  /** `prev.map(inf => inf.id === id ? { ...inf, collaboration_status: status } : inf)`:
      every record with the id gets the new status, whatever its old one was, and
      every other record is kept as it is, in place. */
  function SetStatus(s: seq<Influencer>, id: int, status: string): (r: seq<Influencer>)
    ensures |r| == |s|
    ensures forall i :: 0 <= i < |s| && s[i].id != id ==> r[i] == s[i]
    ensures forall i :: 0 <= i < |s| && s[i].id == id ==> r[i] == s[i].(collaboration_status := status)
  {
    if s == [] then []
    else
      var head := if s[0].id == id then s[0].(collaboration_status := status) else s[0];
      [head] + SetStatus(s[1..], id, status)
  }

  /** Ids are unique in the list. */
  predicate UniqueIds(s: seq<Influencer>)
  {
    forall i, j :: 0 <= i < |s| && 0 <= j < |s| && s[i].id == s[j].id ==> i == j
  }

  /** A second update of the same id overrides the first: the last status written wins. */
  lemma SetStatusLastWins(s: seq<Influencer>, id: int, first: string, second: string)
    ensures SetStatus(SetStatus(s, id, first), id, second) == SetStatus(s, id, second)
  {
  }

  /** An update for an id no record has leaves the list as it is. */
  lemma SetStatusOfAbsentId(s: seq<Influencer>, id: int, status: string)
    requires forall i :: 0 <= i < |s| ==> s[i].id != id
    ensures SetStatus(s, id, status) == s
  {
  }

  /** The update keeps the ids, and so keeps them unique. */
  lemma SetStatusKeepsIds(s: seq<Influencer>, id: int, status: string)
    ensures forall i :: 0 <= i < |s| ==> SetStatus(s, id, status)[i].id == s[i].id
    ensures UniqueIds(s) ==> UniqueIds(SetStatus(s, id, status))
  {
  }

  // ---------------------------------------------------------------------------
  // Promotion after an outreach log is saved (addOutreachLog)
  // ---------------------------------------------------------------------------

  /** `influencers.find(inf => inf.id === id)`: the first record with the id, if any. */
  function FindById(s: seq<Influencer>, id: int): (r: Option<Influencer>)
    ensures r.None? <==> forall i :: 0 <= i < |s| ==> s[i].id != id
    ensures r.Some? ==> r.value.id == id && r.value in s
    ensures r.Some? ==> exists k :: 0 <= k < |s| && s[k] == r.value && forall j :: 0 <= j < k ==> s[j].id != id
  {
    if s == [] then None
    else if s[0].id == id then Some(s[0])
    else
      assert forall i :: 1 <= i < |s| ==> s[1..][i - 1] == s[i];
      var r := FindById(s[1..], id);
      assert r.Some? ==> exists k :: 1 <= k < |s| && s[k] == r.value && forall j :: 0 <= j < k ==> s[j].id != id by {
        if r.Some? {
          var k :| 0 <= k < |s| - 1 && s[1..][k] == r.value && forall j :: 0 <= j < k ==> s[1..][j].id != id;
          assert forall j :: 1 <= j < k + 1 ==> s[j] == s[1..][j - 1];
        }
      }
      r
  }

  /** Under unique ids, the record found is the one record with that id. */
  lemma FindByUniqueId(s: seq<Influencer>, id: int, k: nat)
    requires UniqueIds(s) && k < |s| && s[k].id == id
    ensures FindById(s, id) == Some(s[k])
  {
    var r := FindById(s, id);
    var m :| 0 <= m < |s| && s[m] == r.value;
  }

  /** After a log is saved: if the first record with the id is `'pending'`, the
      status is updated to `'contacted'`; otherwise nothing changes. Records with other
      ids are never touched, and a record with the id either keeps its status or
      becomes `'contacted'`. */
  function PromoteIfPending(s: seq<Influencer>, id: int): (r: seq<Influencer>)
    ensures |r| == |s|
    ensures forall i :: 0 <= i < |s| && s[i].id != id ==> r[i] == s[i]
    ensures forall i :: 0 <= i < |s| && s[i].id == id ==>
              r[i] == s[i] || r[i] == s[i].(collaboration_status := "contacted")
  {
    var found := FindById(s, id);
    if found.Some? && found.value.collaboration_status == Pending.Name()
    then SetStatus(s, id, Contacted.Name())
    else s
  }

  /** With unique ids, the promotion turns the influencer's `'pending'` into
      `'contacted'`, leaves any other status of it alone, and touches no other record. */
  lemma PromoteIfPendingUnique(s: seq<Influencer>, id: int)
    requires UniqueIds(s)
    ensures var r := PromoteIfPending(s, id);
            |r| == |s| &&
            forall i :: 0 <= i < |s| ==>
              r[i] == if s[i].id == id && s[i].collaboration_status == "pending"
                      then s[i].(collaboration_status := "contacted")
                      else s[i]
  {
    if k :| 0 <= k < |s| && s[k].id == id {
      FindByUniqueId(s, id, k);
    }
  }

  /** Saving a second log does not promote further: the promotion is idempotent. */
  lemma PromoteIfPendingIdempotent(s: seq<Influencer>, id: int)
    ensures PromoteIfPending(PromoteIfPending(s, id), id) == PromoteIfPending(s, id)
  {
    FindAfterSetStatus(s, id, Contacted.Name());
  }

  /** After a status update, `find` returns the updated version of the record it
      returned before. */
  lemma {:induction false} FindAfterSetStatus(s: seq<Influencer>, id: int, status: string)
    ensures FindById(SetStatus(s, id, status), id) ==
            if FindById(s, id).Some? then Some(FindById(s, id).value.(collaboration_status := status)) else None
  {
    if s != [] {
      var r := SetStatus(s, id, status);
      assert r[1..] == SetStatus(s[1..], id, status);
      FindAfterSetStatus(s[1..], id, status);
    }
  }

  /** The row `addOutreachLog` inserts (the database supplies the other columns). */
  datatype OutreachInsert = OutreachInsert(
    influencer_id: int,
    contact_date: string,
    contact_method: ContactMethod,
    message_content: string,
    response_status: ResponseStatus)

  /** A new log is always recorded as sent, for the given influencer, method and
      message, dated at the moment of the call. */
  function NewOutreachEntry(influencerId: int, m: ContactMethod, content: string, now: string): (e: OutreachInsert)
    ensures e.response_status == Sent
    ensures e.influencer_id == influencerId && e.contact_method == m
    ensures e.message_content == content && e.contact_date == now
  {
    OutreachInsert(influencerId, now, m, content, Sent)
  }

  // ---------------------------------------------------------------------------
  // Display helpers (formatFollowers, getStatusColor)
  // ---------------------------------------------------------------------------

  /** `formatFollowers`: millions to one decimal from one million up, thousands to one
      decimal from one thousand up, and the plain decimal below that. */
  function FormatFollowers(count: int): (r: string)
    ensures r != []
    ensures r[|r| - 1] == 'M' <==> count >= 1000000
    ensures r[|r| - 1] == 'K' <==> 1000 <= count < 1000000
    ensures count < 1000 ==> r == IntToString(count)
  {
    if count >= 1000000 then Fixed1(count, 1000000) + "M"
    else if count >= 1000 then Fixed1(count, 1000) + "K"
    else IntToString(count)
  }

  /** The unit of the tier a count is shown in. */
  function TierUnit(count: int): nat
  {
    if count >= 1000000 then 1000000 else if count >= 1000 then 1000 else 1
  }

  /** In the K and M tiers the digits of the label, read as one number, are the count
      of tenths of the tier's unit, to within half a tenth. */
  lemma FormatFollowersRounds(count: int)
    requires count >= 1000
    ensures var t := DecimalValue(Digits(FormatFollowers(count)));
            var unit := TierUnit(count);
            unit * t - unit / 2 <= 10 * count < unit * t + unit / 2
  {
    FormatFollowersDigits(count);
    Fixed1Tenths(count, TierUnit(count));
  }

  lemma FormatFollowersDigits(count: int)
    requires count >= 1000
    ensures Digits(FormatFollowers(count)) == Digits(Fixed1(count, TierUnit(count)))
  {
    var numeral := Fixed1(count, TierUnit(count));
    var suffix := if count >= 1000000 then "M" else "K";
    assert FormatFollowers(count) == numeral + suffix;
    DigitsAppend(numeral, suffix);
    DigitsOfNonDigits(suffix);
    assert Digits(numeral) + [] == Digits(numeral);
  }

  /** The tier is chosen before rounding: 999,999 stays in thousands and shows as "1000.0K". */
  lemma FormatFollowersJustBelowMillion()
    ensures FormatFollowers(999999) == "1000.0K"
  {
    assert NatToString(1000) == "1000" by {
      assert NatToString(1) == "1";
      assert NatToString(10) == "10";
      assert NatToString(100) == "100";
    }
  }

  /** The badge classes of each status. */
  function Color(st: CollaborationStatus): string
  {
    match st
    case Pending => "bg-gray-100 " + "text-gray-800"
    case Contacted => "bg-blue-100 " + "text-blue-800"
    case Interested => "bg-green-100 " + "text-green-800"
    case Negotiating => "bg-yellow-100 " + "text-yellow-800"
    case Confirmed => "bg-emerald-100 " + "text-emerald-800"
    case Declined => "bg-red-100 " + "text-red-800"
  }

  /** `colors[status] || colors.pending`: the colour of a known status, and the
      pending colour for any other string. */
  function StatusColor(status: string): (r: string)
    ensures forall st: CollaborationStatus :: st.Name() == status ==> r == Color(st)
    ensures (forall st: CollaborationStatus :: st.Name() != status) ==> r == Color(Pending)
  {
    match ParseStatus(status)
    case Some(st) => Color(st)
    case None => Color(Pending)
  }

  /** Different statuses get different badges. */
  lemma ColorsDistinct(a: CollaborationStatus, b: CollaborationStatus)
    requires a != b
    ensures Color(a) != Color(b)
  {
    ColorKey(a);
    ColorKey(b);
  }

  /** The fourth and sixth characters of each badge (`bg-g?a`, `bg-b?u`, ...) tell the
      six badges apart. */
  lemma ColorKey(st: CollaborationStatus)
    ensures |Color(st)| > 5
    ensures (Color(st)[3], Color(st)[5]) ==
            match st
            case Pending => ('g', 'a')
            case Contacted => ('b', 'u')
            case Interested => ('g', 'e')
            case Negotiating => ('y', 'l')
            case Confirmed => ('e', 'e')
            case Declined => ('r', 'd')
  {
  }

  // ---------------------------------------------------------------------------
  // Outreach form (OutreachForm)
  // ---------------------------------------------------------------------------

  /** `content.trim()` is truthy: the form may be submitted. */
  predicate Submittable(content: string)
  {
    Trim(content) != []
  }

  /** The form may be submitted exactly when the content has a character that is not
      white space. */
  lemma SubmittableIffVisible(content: string)
    ensures Submittable(content) <==> exists i :: 0 <= i < |content| && !IsJsWhitespace(content[i])
  {
    TrimEmptyIffBlank(content);
  }

  /** The message template loaded when a contact method is chosen. */
  function Template(m: ContactMethod): string
  {
    match m
    case Email =>
      "Subject: Collaboration Opportunity - "
      + "Diabetes Reversal Program\n\nDear "
      + "[Name],\n\nI hope this email finds you "
      + "well. I'm Dr. Muddu Surendra Nehru MD "
      + "from Homa Health Care Centre. I've been "
      + "following your content and am impressed "
      + "by your commitment to diabetes "
      + "awareness.\n\nWe're launching an "
      + "evidence-based diabetes reversal "
      + "program and would love to explore a "
      + "collaboration opportunity with "
      + "you.\n\nBest regards,\nDr. Muddu "
      + "Surendra Nehru MD"
    case Phone =>
      "Introduction call about diabetes "
      + "reversal program collaboration "
      + "opportunity"
    case Dm =>
      "Hi! Love your diabetes content. I'm Dr. "
      + "Muddu Surendra Nehru MD and would like "
      + "to discuss a collaboration opportunity "
      + "for our diabetes reversal program."
    case Whatsapp =>
      "Hello! This is Dr. Muddu Surendra Nehru "
      + "MD from Homa Health Care Centre. I'd "
      + "like to discuss a potential "
      + "collaboration for our diabetes reversal "
      + "program."
  }

  /** What the form hands to `onSubmit`. */
  datatype Submission = Submission(contactMethod: ContactMethod, content: string)

  /** The form's state: the chosen contact method and the message text. */
  class OutreachForm {
    var contactMethod: ContactMethod
    var content: string

    constructor()
      ensures contactMethod == Email && content == ""
    {
      contactMethod := Email;
      content := "";
    }

    /** Choosing a method in the selector (`setMethod`, then `setContent` with that
        method's template): the message is replaced by the template. */
    method SelectMethod(m: ContactMethod)
      modifies this
      ensures contactMethod == m && content == Template(m)
    {
      var text := Template(m);
      SetMethod(m);
      SetContent(text);
    }

    /** `setMethod`. */
    method SetMethod(m: ContactMethod)
      modifies this
      ensures contactMethod == m && content == old(content)
    {
      contactMethod := m;
    }

    /** `setContent`, also what typing into the text area does. */
    method SetContent(text: string)
      modifies this
      ensures contactMethod == old(contactMethod) && content == text
    {
      content := text;
    }

    /** `handleSubmit`: a message with a visible character is handed on unchanged (not
        trimmed) with the chosen method and the text area is cleared; a blank message
        is not submitted and stays as it is. */
    method HandleSubmit() returns (submitted: Option<Submission>)
      modifies this
      ensures Submittable(old(content)) ==> submitted == Some(Submission(old(contactMethod), old(content))) && content == ""
      ensures !Submittable(old(content)) ==> submitted == None && content == old(content)
      ensures contactMethod == old(contactMethod)
    {
      if Submittable(content) {
        submitted := Some(Submission(contactMethod, content));
        content := "";
      } else {
        submitted := None;
      }
    }
  }

  // ---------------------------------------------------------------------------
  // The page (InfluencersPage)
  // ---------------------------------------------------------------------------

  /** Which of its three screens the page renders. */
  datatype Screen = Spinner | ErrorScreen(message: string) | Listing

  class InfluencersPage {
    var influencers: seq<Influencer>
    var selected: Option<Influencer>
    var outreachLogs: seq<OutreachLog>
    var loading: bool
    var error: Option<string>

    constructor()
      ensures influencers == [] && selected == None && outreachLogs == []
      ensures loading && error == None
    {
      influencers := [];
      selected := None;
      outreachLogs := [];
      loading := true;
      error := None;
    }

    /** The spinner while loading, then the error screen when the error text is
        truthy (set and not empty), and the list otherwise. */
    function CurrentScreen(): (sc: Screen)
      reads this
      ensures sc == Listing <==> !loading && (error.None? || error.value == "")
      ensures sc.ErrorScreen? ==> Some(sc.message) == error && sc.message != ""
    {
      if loading then Spinner
      else if error.Some? && error.value != "" then ErrorScreen(error.value)
      else Listing
    }

    /** `fetchInfluencers`: rows replace the list (`data || []`); a failure keeps the
        list and sets the error text. Either way loading ends. The error is never
        cleared, so once shown the error screen stays, with the same message, even
        when a retry returns rows. */
    method FetchInfluencers(response: Fetch<Influencer>)
      modifies this
      ensures !loading
      ensures response.Rows? ==> influencers == RowsOrEmpty(response.data) && error == old(error)
      ensures response.Thrown? ==> influencers == old(influencers) && error == Some(FetchErrorText(response.failure))
      ensures response.Rows? && old(error).Some? && old(error).value != "" ==>
                CurrentScreen() == ErrorScreen(old(error).value)
      ensures selected == old(selected) && outreachLogs == old(outreachLogs)
    {
      loading := true;
      match response {
        case Rows(data) =>
          influencers := RowsOrEmpty(data);
        case Thrown(failure) =>
          error := Some(FetchErrorText(failure));
      }
      loading := false;
    }

    /** The retry the error screen evidently intends: rows clear the error, so a
        successful retry shows the list. */
    method FetchInfluencersClearingError(response: Fetch<Influencer>)
      modifies this
      ensures !loading
      ensures response.Rows? ==> influencers == RowsOrEmpty(response.data) && error == None
      ensures response.Rows? ==> CurrentScreen() == Listing
      ensures response.Thrown? ==> influencers == old(influencers) && error == Some(FetchErrorText(response.failure))
      ensures selected == old(selected) && outreachLogs == old(outreachLogs)
    {
      loading := true;
      match response {
        case Rows(data) =>
          influencers := RowsOrEmpty(data);
          error := None;
        case Thrown(failure) =>
          error := Some(FetchErrorText(failure));
      }
      loading := false;
    }

    /** The "Retry Connection" button as evidently intended, running the corrected
        fetch (the button as written runs `FetchInfluencers`: see `RetryAsWritten`). */
    method Retry(response: Fetch<Influencer>)
      modifies this
      requires CurrentScreen().ErrorScreen?
      ensures !loading && selected == old(selected) && outreachLogs == old(outreachLogs)
      ensures response.Rows? ==> CurrentScreen() == Listing && influencers == RowsOrEmpty(response.data)
      ensures response.Thrown? ==> influencers == old(influencers) && error == Some(FetchErrorText(response.failure))
      ensures response.Thrown? && FetchErrorText(response.failure) != "" ==>
                CurrentScreen() == ErrorScreen(FetchErrorText(response.failure))
    {
      FetchInfluencersClearingError(response);
    }

    /** `fetchOutreachLogs`: rows replace the shown logs; a failure is only logged to
        the console and changes nothing. */
    method FetchOutreachLogs(influencerId: int, response: Fetch<OutreachLog>)
      modifies this
      ensures response.Rows? ==> outreachLogs == RowsOrEmpty(response.data)
      ensures response.Thrown? ==> outreachLogs == old(outreachLogs)
      ensures influencers == old(influencers) && selected == old(selected)
      ensures loading == old(loading) && error == old(error)
    {
      if response.Rows? {
        outreachLogs := RowsOrEmpty(response.data);
      }
    }

    /** Clicking a record selects it and loads its outreach history. */
    method SelectInfluencer(inf: Influencer, logs: Fetch<OutreachLog>)
      modifies this
      ensures selected == Some(inf)
      ensures logs.Rows? ==> outreachLogs == RowsOrEmpty(logs.data)
      ensures logs.Thrown? ==> outreachLogs == old(outreachLogs)
      ensures influencers == old(influencers)
      ensures loading == old(loading) && error == old(error)
    {
      selected := Some(inf);
      FetchOutreachLogs(inf.id, logs);
    }

    /** `updateInfluencerStatus`: once the remote update reports no error, every local
        record with the id takes the new status; on error the list is unchanged. Any
        status may replace any other. */
    method UpdateInfluencerStatus(id: int, status: CollaborationStatus, remote: Option<Failure>)
      modifies this
      ensures remote.None? ==> influencers == SetStatus(old(influencers), id, status.Name())
      ensures remote.Some? ==> influencers == old(influencers)
      ensures selected == old(selected) && outreachLogs == old(outreachLogs)
      ensures loading == old(loading) && error == old(error)
    {
      if remote.None? {
        influencers := SetStatus(influencers, id, status.Name());
      }
    }

    /** `addOutreachLog`: inserts the log row it returns. When the insert succeeds, the
        logs are refreshed and a pending influencer is promoted to contacted (subject
        to that update succeeding); when it fails nothing changes. */
    method AddOutreachLog(influencerId: int, m: ContactMethod, content: string, now: string,
                          insert: Option<Failure>, logs: Fetch<OutreachLog>,
                          statusUpdate: Option<Failure>)
      returns (entry: OutreachInsert)
      modifies this
      ensures entry == NewOutreachEntry(influencerId, m, content, now)
      ensures insert.Some? ==> influencers == old(influencers) && outreachLogs == old(outreachLogs)
      ensures insert.None? && statusUpdate.None? ==> influencers == PromoteIfPending(old(influencers), influencerId)
      ensures insert.None? && statusUpdate.Some? ==> influencers == old(influencers)
      ensures insert.None? && logs.Rows? ==> outreachLogs == RowsOrEmpty(logs.data)
      ensures insert.None? && logs.Thrown? ==> outreachLogs == old(outreachLogs)
      ensures selected == old(selected) && loading == old(loading) && error == old(error)
    {
      entry := NewOutreachEntry(influencerId, m, content, now);
      if insert.None? {
        FetchOutreachLogs(influencerId, logs);
        var found := FindById(influencers, influencerId);
        if found.Some? && found.value.collaboration_status == Pending.Name() {
          UpdateInfluencerStatus(influencerId, Contacted, statusUpdate);
        }
      }
    }

    /** Submitting the outreach form of the selected influencer: a submittable message
        is logged for that influencer and the form is cleared. */
    method SubmitOutreach(form: OutreachForm, now: string, insert: Option<Failure>,
                          logs: Fetch<OutreachLog>, statusUpdate: Option<Failure>)
      returns (entry: Option<OutreachInsert>)
      requires selected.Some?
      modifies this, form
      ensures !Submittable(old(form.content)) ==>
                entry == None && form.content == old(form.content) &&
                influencers == old(influencers) && outreachLogs == old(outreachLogs)
      ensures Submittable(old(form.content)) ==>
                entry == Some(NewOutreachEntry(old(selected).value.id, old(form.contactMethod), old(form.content), now)) &&
                form.content == ""
      ensures Submittable(old(form.content)) && insert.Some? ==>
                influencers == old(influencers) && outreachLogs == old(outreachLogs)
      ensures Submittable(old(form.content)) && insert.None? && statusUpdate.None? ==>
                influencers == PromoteIfPending(old(influencers), old(selected).value.id)
      ensures Submittable(old(form.content)) && insert.None? && statusUpdate.Some? ==>
                influencers == old(influencers)
      ensures Submittable(old(form.content)) && insert.None? && logs.Rows? ==>
                outreachLogs == RowsOrEmpty(logs.data)
      ensures Submittable(old(form.content)) && insert.None? && logs.Thrown? ==>
                outreachLogs == old(outreachLogs)
      ensures form.contactMethod == old(form.contactMethod)
      ensures selected == old(selected) && loading == old(loading) && error == old(error)
    {
      var submission := form.HandleSubmit();
      if submission.Some? {
        var e := AddOutreachLog(selected.value.id, submission.value.contactMethod, submission.value.content,
                                now, insert, logs, statusUpdate);
        entry := Some(e);
      } else {
        entry := None;
      }
    }
  }
  /** A first load that throws `Error("timeout")`, then "Retry Connection" with the
      fetch as written: the rows arrive, but the page still shows the error. */
  method RetryAsWritten() returns (sc: Screen)
    ensures sc == ErrorScreen("timeout")
  {
    var page := new InfluencersPage();
    page.FetchInfluencers(Thrown(ErrorObject("timeout")));
    page.FetchInfluencers(Rows(Some([])));
    sc := page.CurrentScreen();
  }

  /** The same sequence with the corrected retry: the page shows the list. */
  method RetryCorrected() returns (sc: Screen)
    ensures sc == Listing
  {
    var page := new InfluencersPage();
    page.FetchInfluencers(Thrown(ErrorObject("timeout")));
    page.Retry(Rows(Some([])));
    sc := page.CurrentScreen();
  }
}
